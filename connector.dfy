// The per-key body of the Connector's selector loop (Connector.kt): for one
// selected key it discards a cancelled key, accepts a new client, captures a
// client's first bytes and opens the upstream connection named by their
// SNI, completes an upstream connect, and hands readable and writable keys
// of an established pair to their Pipe.
//
// The selector itself, the iteration over selected keys and the sockets are
// not modelled; what the socket calls returned arrives as an `Env`.

module Reactor {
  import opened Common
  import opened Text
  import opened Buffers
  import opened Selection
  import opened Pipes

  /** The Connector's initial-read buffer, `ByteBuffer.allocate(4096)`. */
  const HelloBufferSize: nat := 4096

  type HelloSize = n: nat | n <= 4096

  /** What the first `channel.read(buffer)` of a new client returned. */
  datatype FirstRead = Captured(nread: HelloSize) | PeerClosed | FirstReadFailed

  /** What `finishConnect()` did. */
  datatype ConnectResult = Established | StillPending | ConnectError

  /**
   * The results of the socket calls one key's handling may make:
   * `accept()` (a null result is `acceptOk == false`), the first read, the
   * SNI extracted from it, whether `connect`/`register` succeeded, the
   * upstream `finishConnect()`, and a Pipe's read and write.
   */
  datatype Env = Env(acceptOk: bool, first: FirstRead, sni: Option<string>, connectOk: bool,
                     finish: ConnectResult, read: ReadResult, write: WriteResult)

  /** How the handling of one selected key ended. */
  datatype Outcome =
    | Discarded                 // the key was no longer valid
    | NewClient(client: Key)    // a client connection was accepted and registered
    | Crashed                   // an exception escaped the selector loop
    | ClosedEarly               // the client closed before sending anything
    | NoSni                     // the client's first bytes named no server
    | ConnectFailed             // opening the upstream connection threw
    | ConnectAborted            // the upstream connect did not complete
    | NoPipeToWrite             // a writable key with nothing attached
    | Handled                   // every applicable handler ran

  /** The SNI test of the initial-handshake branch: present and not blank after `trim()`. */
  predicate UsableSni(sni: Option<string>) {
    sni.Some? && Trim(sni.value) != ""
  }

  /** A missing SNI or one made only of whitespace is refused. */
  lemma UsableSniMeans(sni: Option<string>)
    ensures UsableSni(sni) <==> sni.Some? && !IsBlank(sni.value)
  {
    if sni.Some? {
      TrimEmptyIffBlank(sni.value);
    }
  }

  // ---------------------------------------------------------------------------
  // What one dispatch does to the state of the Pipe a key belongs to
  // ---------------------------------------------------------------------------

  /**
   * The connectable branch on the key of `side`: a completed connect sets its
   * interest to exactly READ and WRITE; otherwise that key and the client key
   * are cancelled and both their channels closed.
   */
  function ConnectStep(s: PipeState, side: Side, finish: ConnectResult): PipeState {
    if finish == Established then s.With(side, s.Of(side).(interest := {OpRead, OpWrite}))
    else
      var clientGone := s.(src := s.src.(registered := false, open := false));
      clientGone.With(side, clientGone.Of(side).(registered := false, open := false))
  }

  /** A failed connect of the upstream side amounts to `cleanup()`. */
  lemma AbortedConnectCleansUp(s: PipeState, finish: ConnectResult)
    requires finish != Established
    ensures ConnectStep(s, Dest, finish) == CleanedUp(s)
  {
  }

  /** Completing a connect touches neither the slots, the EOF flags nor the counters. */
  lemma ConnectKeepsData(s: PipeState, side: Side, finish: ConnectResult)
    ensures var t := ConnectStep(s, side, finish);
      t.bytesUp == s.bytesUp && t.bytesDown == s.bytesDown
      && t.src.eof == s.src.eof && t.src.present == s.src.present && t.src.remaining == s.src.remaining
      && t.dest.eof == s.dest.eof && t.dest.present == s.dest.present && t.dest.remaining == s.dest.remaining
  {
  }

  /** The connectable branch keeps every parked slot's consumer able to take it. */
  lemma ConnectPreservesProgress(s: PipeState, side: Side, finish: ConnectResult)
    requires Progress(s)
    ensures Progress(ConnectStep(s, side, finish))
  {
  }

  /**
   * A Pipe just built around a client key whose interest set was `interest`
   * and whose channel's openness was `open`: the `nread` captured bytes sit
   * in the `Src` slot and count as sent up, and the fresh upstream key waits
   * for CONNECT only.
   */
  function Opened(interest: set<Interest>, open: bool, nread: nat): PipeState {
    PipeState(End(false, true, nread, interest, true, open),
              End(false, false, Capacity, {OpConnect}, true, true), nread, 0)
  }

  /** A new Pipe already has its captured bytes' consumer armed: the upstream key is connecting. */
  lemma OpenedProgress(interest: set<Interest>, open: bool, nread: nat)
    ensures Progress(Opened(interest, open, nread))
    ensures Opened(interest, open, nread).src.present && Opened(interest, open, nread).bytesUp == nread
  {
  }

  /**
   * The connectable and then the writable branch on the key of `side`, each
   * run only while that key is still valid and ready for it.
   */
  function ConnectThenWrite(s: PipeState, side: Side, ready: set<Interest>, env: Env): PipeState {
    var connected := if s.Of(side).registered && OpConnect in ready then ConnectStep(s, side, env.finish) else s;
    if connected.Of(side).registered && OpWrite in ready then WriteStep(connected, side, env.write) else connected
  }

  /**
   * One dispatch of the key of `side` with ready set `ready`: nothing for an
   * invalid key or an acceptable one; otherwise the Pipe reads if the key is
   * readable, then the connect and write branches follow.
   */
  function DispatchStep(s: PipeState, side: Side, ready: set<Interest>, env: Env): PipeState {
    if !s.Of(side).registered || OpAccept in ready then s
    else ConnectThenWrite(if OpRead in ready then ReadStep(s, side, env.read) else s, side, ready, env)
  }

  /** Every dispatch keeps `Progress`. */
  lemma DispatchPreservesProgress(s: PipeState, side: Side, ready: set<Interest>, env: Env)
    requires Progress(s)
    ensures Progress(ConnectThenWrite(s, side, ready, env))
    ensures Progress(DispatchStep(s, side, ready, env))
  {
    var connected := if s.Of(side).registered && OpConnect in ready then ConnectStep(s, side, env.finish) else s;
    ConnectPreservesProgress(s, side, env.finish);
    ProgressPreserved(connected, side, env.read, env.write);
    ProgressPreserved(s, side, env.read, env.write);
    var read := ReadStep(s, side, env.read);
    var readConnected := if read.Of(side).registered && OpConnect in ready then ConnectStep(read, side, env.finish) else read;
    ConnectPreservesProgress(read, side, env.finish);
    ProgressPreserved(readConnected, side, env.read, env.write);
  }

  /** A dispatch leaves the Pipe of an invalid key untouched. */
  lemma InvalidKeyUntouched(s: PipeState, side: Side, ready: set<Interest>, env: Env)
    requires !s.Of(side).registered
    ensures DispatchStep(s, side, ready, env) == s
  {
  }

  /** A key whose read handler cancelled it gets no connect or write handler. */
  lemma CancelledKeyGetsNoFurtherHandler(s: PipeState, side: Side, ready: set<Interest>, env: Env)
    requires s.Of(side).registered && OpAccept !in ready && OpRead in ready
    requires !ReadStep(s, side, env.read).Of(side).registered
    ensures DispatchStep(s, side, ready, env) == ReadStep(s, side, env.read)
  {
  }

  /** A failed connect ends the dispatch: no write handler runs, and for the upstream side the Pipe is cleaned up. */
  lemma AbortedConnectEndsDispatch(s: PipeState, side: Side, ready: set<Interest>, env: Env)
    requires s.Of(side).registered && OpConnect in ready && env.finish != Established
    ensures ConnectThenWrite(s, side, ready, env) == ConnectStep(s, side, env.finish)
    ensures side == Dest ==> ConnectThenWrite(s, side, ready, env) == CleanedUp(s)
  {
  }

  /** A valid key that is only writable gets exactly the Pipe's write handler. */
  lemma WritableOnly(s: PipeState, side: Side, env: Env)
    requires s.Of(side).registered
    ensures DispatchStep(s, side, {OpWrite}, env) == WriteStep(s, side, env.write)
  {
  }

  /** Every object of every Pipe in `att`. */
  ghost function FootprintOf(att: map<Key, Pipe>): set<object> {
    set k, o | k in att && o in att[k].Objects() :: o
  }

  /** Every object of the Pipes of a map allocated in the old state was allocated in the old state. */
  twostate lemma OldFootprintAllocated(att: map<Key, Pipe>)
    ensures forall o :: o in FootprintOf(att) ==> old(allocated(o))
  {
  }

  /** The Connector and its identifier source belong to no Pipe. */
  lemma OutsideFootprintOf(att: map<Key, Pipe>, c: Connector, ids: IdSource)
    ensures c !in FootprintOf(att) && ids !in FootprintOf(att)
  {
  }

  lemma InFootprintOf(att: map<Key, Pipe>, k: Key)
    requires k in att
    ensures att[k].Objects() <= FootprintOf(att)
  {
  }

  /** Attaching `p` to two keys that had no Pipe adds exactly `p`'s objects to the footprint. */
  lemma FootprintWithPipe(att: map<Key, Pipe>, key: Key, p: Pipe)
    requires key !in att && p.destKey !in att
    ensures FootprintOf(att[key := p][p.destKey := p]) == FootprintOf(att) + p.Objects()
  {
    var att': map<Key, Pipe> := att[key := p][p.destKey := p];
    forall o | o in FootprintOf(att') ensures o in FootprintOf(att) + p.Objects() {
      var k :| k in att' && o in att'[k].Objects();
      if k != key && k != p.destKey {
        InFootprintOf(att, k);
      }
    }
    forall o | o in FootprintOf(att) ensures o in FootprintOf(att') {
      var k :| k in att && o in att[k].Objects();
      InFootprintOf(att', k);
    }
    InFootprintOf(att', key);
  }

  /** Every attached Pipe is built around the key it hangs on, and hangs on both its keys. */
  ghost predicate Hung(att: map<Key, Pipe>) {
    forall k :: k in att ==>
      att[k].Valid() && (k == att[k].srcKey || k == att[k].destKey)
      && att[k].srcKey in att && att[att[k].srcKey] == att[k] && att[k].destKey in att && att[att[k].destKey] == att[k]
  }

  /** Distinct Pipes share no object. */
  ghost predicate Apart(att: map<Key, Pipe>) {
    forall k, k' :: k in att && k' in att && att[k] != att[k'] ==> att[k].Objects() !! att[k'].Objects()
  }

  /** A key with no Pipe, and its channel, belong to no Pipe. */
  ghost predicate Loose(att: map<Key, Pipe>, keys: set<Key>) {
    forall k :: k in keys && k !in att ==> k !in FootprintOf(att) && k.channel !in FootprintOf(att)
  }

  /** Distinct keys have distinct channels. */
  ghost predicate OneKeyPerChannel(keys: set<Key>) {
    forall k, k' :: k in keys && k' in keys && k != k' ==> k.channel != k'.channel
  }

  /** The shape of the Connector's bookkeeping. */
  ghost predicate Arranged(att: map<Key, Pipe>, keys: set<Key>) {
    Hung(att) && Apart(att) && Loose(att, keys) && OneKeyPerChannel(keys)
  }

  /** Registering a key whose channel is new keeps the bookkeeping in shape. */
  lemma ArrangedWithClient(att: map<Key, Pipe>, keys: set<Key>, client: Key)
    requires Arranged(att, keys)
    requires client !in FootprintOf(att) && client.channel !in FootprintOf(att)
    requires forall k :: k in keys ==> k.channel != client.channel
    ensures Arranged(att, keys + {client})
  {
  }

  lemma HungWithPipe(att: map<Key, Pipe>, key: Key, p: Pipe)
    requires Hung(att) && key !in att && p.destKey !in att
    requires p.Valid() && p.srcKey == key
    ensures Hung(att[key := p][p.destKey := p])
  {
  }

  lemma ApartWithPipe(att: map<Key, Pipe>, key: Key, p: Pipe)
    requires Apart(att) && key !in att && p.destKey !in att
    requires p.Objects() !! FootprintOf(att)
    ensures Apart(att[key := p][p.destKey := p])
  {
    forall k | k in att
      ensures att[k].Objects() !! p.Objects()
    {
      InFootprintOf(att, k);
    }
  }

  lemma LooseWithPipe(att: map<Key, Pipe>, keys: set<Key>, key: Key, p: Pipe)
    requires Loose(att, keys) && OneKeyPerChannel(keys) && key in keys && key !in att && p.destKey !in att
    requires p.Valid() && p.srcKey == key
    requires forall k :: k in keys ==> k.channel != p.dest
    ensures Loose(att[key := p][p.destKey := p], keys + {p.destKey})
  {
    FootprintWithPipe(att, key, p);
    forall k: Key | k in keys + {p.destKey} && k !in att[key := p][p.destKey := p]
      ensures k !in p.Objects() && k.channel !in p.Objects()
    {
      assert k in keys && k != key;
    }
  }

  /**
   * Attaching a Pipe built around a key with no Pipe, whose other objects are
   * new, to that key and to the Pipe's new upstream key keeps the bookkeeping
   * in shape.
   */
  lemma ArrangedWithPipe(att: map<Key, Pipe>, keys: set<Key>, key: Key, p: Pipe)
    requires Arranged(att, keys) && key in keys && key !in att
    requires p.Valid() && p.srcKey == key
    requires p !in FootprintOf(att) && p.data !in FootprintOf(att)
    requires p.destKey !in FootprintOf(att) && p.dest !in FootprintOf(att)
    requires forall k :: k in keys ==> k.channel != p.dest
    ensures Arranged(att[key := p][p.destKey := p], keys + {p.destKey})
  {
    assert p.destKey !in att by {
      if p.destKey in att {
        InFootprintOf(att, p.destKey);
      }
    }
    assert p.Objects() !! FootprintOf(att) by {
      assert key !in FootprintOf(att) && key.channel !in FootprintOf(att);
    }
    HungWithPipe(att, key, p);
    ApartWithPipe(att, key, p);
    LooseWithPipe(att, keys, key, p);
  }

  class Connector {
    const listenPort: int
    const port: int
    const ids: IdSource
    /** The listening socket's registration for ACCEPT. */
    const listener: Key
    /** The keys registered with the selector. */
    var keys: set<Key>
    /** `key.attachment()` for the keys that have one. */
    var attachment: map<Key, Pipe>

    /** The server channel bound and registered for ACCEPT; nothing is attached yet. */
    constructor (listenPort: int, port: int, ids: IdSource)
      ensures this.listenPort == listenPort && this.port == port && this.ids == ids
      ensures fresh(listener) && listener.role == Listener && listener.valid && listener.interest == {OpAccept}
      ensures keys == {listener} && attachment == map[]
      ensures Valid()
    {
      this.listenPort := listenPort;
      this.port := port;
      this.ids := ids;
      var serverChannel := new Channel();
      listener := new Key(serverChannel, Listener, {OpAccept});
      keys := {listener};
      attachment := map[];
    }

    /** The Pipe attached to a key is built around that key. */
    ghost predicate Attached(key: Key)
      reads this
    {
      key in attachment ==> attachment[key].Valid() && (key == attachment[key].srcKey || key == attachment[key].destKey)
    }

    /** Both keys of an attached Pipe carry it. */
    ghost predicate Partnered(key: Key)
      reads this
    {
      key in attachment ==>
        var p := attachment[key];
        p.srcKey in attachment && attachment[p.srcKey] == p && p.destKey in attachment && attachment[p.destKey] == p
    }

    /** The objects a key's handling may change through its Pipe. */
    function PipeObjects(key: Key): set<object>
      reads this
    {
      if key in attachment then attachment[key].Objects() else {}
    }

    /** Every object of every attached Pipe. */
    ghost function Footprint(): set<object>
      reads this
    {
      FootprintOf(attachment)
    }

    /** What holds between two dispatches: the bookkeeping is in shape and every Pipe's parked data has its consumer armed. */
    ghost predicate Valid()
      reads this, Footprint()
    {
      Arranged(attachment, keys)
      && (forall k :: k in attachment ==>
            assert attachment[k].Objects() <= Footprint();
            Progress(attachment[k].State()))
    }

    /** An acceptable listener key: the new client is registered for READ and WRITE, with nothing attached. */
    method AcceptClient(acceptOk: bool) returns (outcome: Outcome)
      modifies this
      ensures attachment == old(attachment)
      ensures !acceptOk ==> outcome == Crashed && keys == old(keys)
      ensures acceptOk ==>
        outcome.NewClient? && fresh(outcome.client) && fresh(outcome.client.channel)
        && outcome.client.role == Client && outcome.client.valid && outcome.client.channel.open
        && outcome.client.interest == {OpRead, OpWrite}
        && outcome.client !in attachment
        && keys == old(keys) + {outcome.client}
    {
      if !acceptOk {
        return Crashed;
      }
      var clientChannel := new Channel();
      var clientKey := new Key(clientChannel, Client, {OpRead, OpWrite});
      keys := keys + {clientKey};
      return NewClient(clientKey);
    }

    /** The client side was let go: its key cancelled and its channel closed. */
    ghost predicate Refused(key: Key)
      reads key, key.channel
    {
      !key.valid && !key.channel.open
    }

    /**
     * The state after a successful connect and register: one fresh Pipe from
     * `key`'s channel to a fresh upstream channel, attached to both keys, in
     * the state `Opened` describes.
     */
    ghost predicate Piped(key: Key, host: string, nread: nat)
      reads this, key, key.channel, attachment.Values, set p | p in attachment.Values :: p.data,
            set p | p in attachment.Values :: p.destKey, set p | p in attachment.Values :: p.dest
    {
      key in attachment && Attached(key) && Partnered(key)
      && var p := attachment[key];
      p.srcKey == key && p.src == key.channel && p.targetHost == host
      && p.destKey.role == Upstream
      && p.State() == Opened(key.interest, key.channel.open, nread)
    }

    /** `key.cancel()` and `safeClose(channel)` for a client that will get no Pipe. */
    method Refuse(key: Key)
      modifies key, key.channel
      ensures Refused(key) && key.interest == old(key.interest)
    {
      key.valid := false;
      key.channel.open := false;
    }

    /**
     * After a usable SNI: a fresh upstream channel is connected and registered
     * and a Pipe attached to both keys; if connecting or registering throws,
     * both channels are closed and the client key cancelled.
     */
    method OpenUpstream(key: Key, host: string, nread: nat, connectOk: bool) returns (outcome: Outcome)
      requires key !in attachment && key.valid
      modifies this, key, key.channel, ids
      ensures !connectOk ==> outcome == ConnectFailed && Refused(key) && unchanged(this)
      ensures connectOk ==> outcome == Handled && unchanged(key, key.channel) && Piped(key, host, nread)
      ensures connectOk ==>
        var p := attachment[key];
        fresh(p) && fresh(p.data) && fresh(p.destKey) && fresh(p.dest)
        && attachment == old(attachment)[key := p][p.destKey := p]
        && keys == old(keys) + {p.destKey}
        && p.id == old(ids.last) + 1
    {
      var remoteChannel := new Channel();
      if !connectOk {
        remoteChannel.open := false;
        Refuse(key);
        return ConnectFailed;
      }
      var remoteKey := new Key(remoteChannel, Upstream, {OpConnect});
      keys := keys + {remoteKey};
      var data := new DataBuffer();
      var newPipe := new Pipe(host, key.channel, remoteChannel, nread, data, key, remoteKey, ids);
      attachment := attachment[remoteKey := newPipe];
      attachment := attachment[key := newPipe];
      assert attachment == old(attachment)[key := newPipe][remoteKey := newPipe];
      return Handled;
    }

    /**
     * A readable client key with no Pipe: the first bytes are read, their SNI
     * names the upstream host, and the upstream connection is opened. A
     * client that closes at once or names no server is closed and no
     * upstream socket is opened; a failed first read escapes the loop.
     */
    method CaptureHandshake(key: Key, env: Env) returns (outcome: Outcome)
      requires key !in attachment && key.valid
      modifies this, key, key.channel, ids
      ensures env.first.FirstReadFailed? ==> outcome == Crashed && unchanged(this, key, key.channel)
      ensures env.first.PeerClosed? ==> outcome == ClosedEarly && Refused(key) && unchanged(this)
      ensures env.first.Captured? && !UsableSni(env.sni) ==> outcome == NoSni && Refused(key) && unchanged(this)
      ensures env.first.Captured? && UsableSni(env.sni) ==>
        if env.connectOk then
          outcome == Handled && unchanged(key, key.channel) && Piped(key, env.sni.value, env.first.nread)
          && var p := attachment[key];
          fresh(p) && fresh(p.data) && fresh(p.destKey) && fresh(p.dest)
          && attachment == old(attachment)[key := p][p.destKey := p]
          && keys == old(keys) + {p.destKey}
        else outcome == ConnectFailed && Refused(key) && unchanged(this)
    {
      match env.first {
        case FirstReadFailed =>
          return Crashed;
        case PeerClosed =>
          Refuse(key);
          return ClosedEarly;
        case Captured(nread) =>
          var sniHostName := env.sni;
          if sniHostName.None? || "" == Trim(sniHostName.value) {
            Refuse(key);
            return NoSni;
          }
          outcome := OpenUpstream(key, sniHostName.value, nread, env.connectOk);
      }
    }

    /**
     * A connectable key: `finishConnect()` changes its Pipe exactly as
     * `ConnectStep` says; a key with no Pipe makes the cast throw.
     */
    method FinishConnect(key: Key, finish: ConnectResult) returns (outcome: Outcome)
      requires Attached(key)
      modifies key, PipeObjects(key)
      ensures key !in attachment ==> outcome == Crashed && unchanged(key)
      ensures key in attachment ==>
        attachment[key].SideOf(key.channel).Some?
        && attachment[key].State() == ConnectStep(old(attachment[key].State()), attachment[key].SideOf(key.channel).value, finish)
        && (outcome == Handled <==> finish == Established)
        && (outcome != Handled ==> outcome == ConnectAborted)
    {
      if key !in attachment {
        return Crashed;
      }
      var pipe := attachment[key];
      if finish == Established {
        key.interest := {OpRead, OpWrite};
        return Handled;
      }
      key.valid := false;
      pipe.srcKey.valid := false;
      pipe.src.open := false;
      key.channel.open := false;
      return ConnectAborted;
    }

    /**
     * A readable key: its Pipe reads if it has one; otherwise this is a new
     * client's first read, which captures the handshake and opens the
     * upstream connection.
     */
    method OnReadable(key: Key, env: Env) returns (outcome: Outcome)
      requires Attached(key) && key.valid
      modifies this, key, key.channel, ids, PipeObjects(key)
      ensures outcome in {Handled, Crashed, ClosedEarly, NoSni, ConnectFailed}
      ensures old(key in attachment) ==>
        outcome == Handled && attachment == old(attachment) && keys == old(keys)
        && attachment[key].SideOf(key.channel).Some?
        && attachment[key].State() == ReadStep(old(attachment[key].State()), attachment[key].SideOf(key.channel).value, env.read)
      ensures outcome != Handled ==> key !in attachment && attachment == old(attachment) && keys == old(keys)
      ensures outcome in {ClosedEarly, NoSni, ConnectFailed} ==> Refused(key)
      ensures outcome == Crashed ==> key.valid
      ensures Attached(key)
      ensures old(key !in attachment) && outcome == Handled ==>
        env.first.Captured? && UsableSni(env.sni) && env.connectOk
        && Piped(key, env.sni.value, env.first.nread)
        && key.interest == old(key.interest) && key.channel.open == old(key.channel.open)
        && var p := attachment[key];
        fresh(p) && fresh(p.data) && fresh(p.destKey) && fresh(p.dest)
        && attachment == old(attachment)[key := p][p.destKey := p]
        && keys == old(keys) + {p.destKey}
    {
      if key in attachment {
        var pipe := attachment[key];
        var handled := pipe.HandleCanRead(key.channel, env.read);
        return Handled;
      }
      outcome := CaptureHandshake(key, env);
    }

    /** A writable key: its Pipe writes; a key with nothing attached is skipped. */
    method OnWritable(key: Key, w: WriteResult) returns (outcome: Outcome)
      requires Attached(key)
      modifies PipeObjects(key)
      ensures outcome == NoPipeToWrite <==> key !in attachment
      ensures outcome in {Handled, NoPipeToWrite}
      ensures key in attachment ==>
        attachment[key].SideOf(key.channel).Some?
        && attachment[key].State() == WriteStep(old(attachment[key].State()), attachment[key].SideOf(key.channel).value, w)
    {
      if key !in attachment {
        return NoPipeToWrite;
      }
      var pipe := attachment[key];
      var handled := pipe.HandleCanWrite(key.channel, w);
      return Handled;
    }

    /**
     * The connectable and writable branches, each run while the key is still
     * valid; a failed connect ends the key's handling.
     */
    method ConnectAndWrite(key: Key, ready: set<Interest>, env: Env) returns (outcome: Outcome)
      requires Attached(key)
      modifies key, PipeObjects(key)
      ensures key !in attachment ==>
        unchanged(key)
        && outcome == (if key.valid && OpConnect in ready then Crashed
                       else if key.valid && OpWrite in ready then NoPipeToWrite else Handled)
      ensures key in attachment ==>
        attachment[key].SideOf(key.channel).Some?
        && attachment[key].State()
           == ConnectThenWrite(old(attachment[key].State()), attachment[key].SideOf(key.channel).value, ready, env)
        && outcome in {Handled, ConnectAborted}
        && (outcome == ConnectAborted ==> !key.valid && !key.channel.open)
    {
      if key in attachment {
        attachment[key].KeySide(key);
      }
      outcome := Handled;
      if key.valid && OpConnect in ready {
        outcome := FinishConnect(key, env.finish);
        if outcome != Handled {
          if key in attachment {
            attachment[key].KeySide(key);
          }
          return;
        }
      }
      if key in attachment {
        attachment[key].KeySide(key);
      }
      if key.valid && OpWrite in ready {
        outcome := OnWritable(key, env.write);
      }
    }

    /**
     * What the handling of one selected key with ready set `ready` does, in
     * the order of the selector loop's body. Every handler after the first is
     * guarded by the key still being valid, so a key cancelled by an earlier
     * handler gets no further one. The key's Pipe changes exactly as
     * `DispatchStep` says; a Pipe created by the handshake starts in the
     * `Opened` state.
     */
    twostate predicate Dispatched(key: Key, ready: set<Interest>, env: Env, new outcome: Outcome)
      reads this, key, key.channel, ids, PipeObjects(key), if outcome.NewClient? then {outcome.client} else {}
    {
      (!old(key.valid) ==>
           outcome == Discarded && unchanged(this, key, key.channel, ids) && unchanged(PipeObjects(key)) && !key.valid)
      && (old(key.valid) && key.role == Listener ==>
           (outcome == Crashed || outcome.NewClient?) && attachment == old(attachment))
      && (outcome.NewClient? ==>
           fresh(outcome.client) && fresh(outcome.client.channel) && outcome.client.interest == {OpRead, OpWrite}
           && outcome.client !in attachment
           && attachment == old(attachment) && keys == old(keys) + {outcome.client})
      && (outcome in {ClosedEarly, NoSni, ConnectFailed} ==>
           !key.valid && !key.channel.open && key !in attachment && attachment == old(attachment) && keys == old(keys))
      && (outcome == NoPipeToWrite ==> OpWrite in ready && key.valid && key !in attachment)
      && (outcome == ConnectAborted ==> !key.valid && !key.channel.open && key in attachment)
      && (!outcome.NewClient? && (old(key in attachment) || key !in attachment) ==>
           attachment == old(attachment) && keys == old(keys))
      && (old(key in attachment) ==>
           key in attachment && attachment[key].SideOf(key.channel).Some?
           && attachment[key].State()
              == DispatchStep(old(attachment[key].State()), attachment[key].SideOf(key.channel).value, ready, env))
      && (old(key !in attachment) && key in attachment ==>
           env.first.Captured? && UsableSni(env.sni) && env.connectOk
           && var p := attachment[key];
           p.srcKey == key && p.src == key.channel && p.targetHost == env.sni.value && Attached(key) && Partnered(key)
           && fresh(p) && fresh(p.data) && fresh(p.destKey) && fresh(p.dest)
           && attachment == old(attachment)[key := p][p.destKey := p]
           && keys == old(keys) + {p.destKey}
           && p.State() == ConnectThenWrite(Opened(old(key.interest), old(key.channel.open), env.first.nread), Src, ready, env))
    }

    /** The handling of one selected key, a Pipe's invariant aside. */
    method Handle(key: Key, ready: set<Interest>, env: Env) returns (outcome: Outcome)
      requires ready != {} && ready <= ValidOps(key.role)
      requires Attached(key)
      modifies this, key, key.channel, ids, PipeObjects(key)
      ensures Dispatched(key, ready, env, outcome)
    {
      if !key.valid {
        key.valid := false;
        return Discarded;
      }
      if OpAccept in ready {
        outcome := AcceptClient(env.acceptOk);
        return;
      }
      outcome := ReadConnectWrite(key, ready, env);
    }

    /** The handlers of a valid key that is not accepting: READ, then CONNECT, then WRITE. */
    method ReadConnectWrite(key: Key, ready: set<Interest>, env: Env) returns (outcome: Outcome)
      requires ready != {} && ready <= ValidOps(key.role) && OpAccept !in ready
      requires Attached(key) && key.valid
      modifies this, key, key.channel, ids, PipeObjects(key)
      ensures Dispatched(key, ready, env, outcome)
    {
      if key in attachment {
        outcome := ReadConnectWritePiped(key, ready, env);
      } else {
        outcome := ReadConnectWriteLoose(key, ready, env);
      }
    }

    /** `ReadConnectWrite` for a key with a Pipe. */
    method ReadConnectWritePiped(key: Key, ready: set<Interest>, env: Env) returns (outcome: Outcome)
      requires ready != {} && ready <= ValidOps(key.role) && OpAccept !in ready
      requires Attached(key) && key.valid && key in attachment
      modifies this, key, key.channel, ids, PipeObjects(key)
      ensures Dispatched(key, ready, env, outcome)
    {
      attachment[key].KeySide(key);
      if OpRead in ready {
        outcome := OnReadable(key, env);
        if outcome != Handled {
          return;
        }
      }
      outcome := ConnectAndWrite(key, ready, env);
    }

    /** `ReadConnectWrite` for a key with no Pipe yet: the handshake may create one. */
    method ReadConnectWriteLoose(key: Key, ready: set<Interest>, env: Env) returns (outcome: Outcome)
      requires ready != {} && ready <= ValidOps(key.role) && OpAccept !in ready
      requires Attached(key) && key.valid && key !in attachment
      modifies this, key, key.channel, ids
      ensures Dispatched(key, ready, env, outcome)
    {
      if OpRead in ready {
        outcome := OnReadable(key, env);
        if outcome != Handled {
          return;
        }
      }
      outcome := ConnectAndWrite(key, ready, env);
    }

    /** Registering a new key with a new channel keeps the bookkeeping in shape. */
    twostate lemma ShapeWithClient(new client: Key)
      requires old(Arranged(attachment, keys))
      requires fresh(client) && fresh(client.channel) && attachment == old(attachment) && keys == old(keys) + {client}
      ensures Arranged(attachment, keys)
    {
      OldFootprintAllocated(old(attachment));
      ArrangedWithClient(old(attachment), old(keys), client);
    }

    /**
     * Attaching to a key with no Pipe a new Pipe built around it from new
     * objects, and hanging it on its new upstream key as well, keeps the
     * bookkeeping in shape.
     */
    twostate lemma ShapeWithPipe(key: Key)
      requires old(Arranged(attachment, keys)) && old(key in keys)
      requires key !in old(attachment) && key in attachment
      requires var p := attachment[key];
        p.Valid() && p.srcKey == key && fresh(p) && fresh(p.data) && fresh(p.destKey) && fresh(p.dest)
        && attachment == old(attachment)[key := p][p.destKey := p] && keys == old(keys) + {p.destKey}
      ensures Arranged(attachment, keys)
    {
      OldFootprintAllocated(old(attachment));
      ArrangedWithPipe(old(attachment), old(keys), key, attachment[key]);
    }

    /**
     * Every Pipe keeps its consumers armed across a dispatch of `key` that
     * changed no Pipe but the key's own, and that one keeping its consumers armed.
     */
    twostate lemma ProgressKept(key: Key)
      requires old(forall k :: k in attachment ==> Progress(attachment[k].State()))
      requires forall o :: o in old(FootprintOf(attachment)) && o !in old(PipeObjects(key)) ==> unchanged(o)
      requires key in old(attachment) ==> Progress(old(attachment)[key].State())
      requires old(Apart(attachment)) && attachment == old(attachment)
      ensures forall k :: k in attachment ==> Progress(attachment[k].State())
    {
      var before, mine := old(attachment), old(PipeObjects(key));
      forall k | k in attachment
        ensures Progress(attachment[k].State())
      {
        var q := before[k];
        if q.Objects() !! mine {
          InFootprintOf(before, k);
          assert unchanged(q, q.data, q.srcKey, q.destKey, q.src, q.dest);
        } else {
          assert key in before && q == before[key];
        }
      }
    }

    /** The same when the dispatch attached a new Pipe to `key` and its upstream key. */
    twostate lemma ProgressWithPipe(key: Key)
      requires old(forall k :: k in attachment ==> Progress(attachment[k].State()))
      requires forall o :: o in old(FootprintOf(attachment)) ==> unchanged(o)
      requires key !in old(attachment) && key in attachment && attachment[key].destKey !in old(attachment)
      requires attachment == old(attachment)[key := attachment[key]][attachment[key].destKey := attachment[key]]
      requires Progress(attachment[key].State())
      ensures forall k :: k in attachment ==> Progress(attachment[k].State())
    {
      var before := old(attachment);
      forall k | k in before
        ensures Progress(before[k].State())
      {
        var q := before[k];
        InFootprintOf(before, k);
        assert unchanged(q, q.data, q.srcKey, q.destKey, q.src, q.dest);
      }
    }

    /**
     * One selected key handled as `Handle` describes, between two states in
     * which the Connector's invariant holds.
     */
    method Dispatch(key: Key, ready: set<Interest>, env: Env) returns (outcome: Outcome)
      requires Valid() && key in keys
      requires ready != {} && ready <= ValidOps(key.role)
      modifies this, key, key.channel, ids, PipeObjects(key)
      ensures Valid() && Dispatched(key, ready, env, outcome)
    {
      if key in attachment {
        outcome := DispatchAttached(key, ready, env);
      } else {
        outcome := DispatchDetached(key, ready, env);
      }
    }

    /** `Dispatch` for a key with a Pipe: no other Pipe changes. */
    method DispatchAttached(key: Key, ready: set<Interest>, env: Env) returns (outcome: Outcome)
      requires Valid() && key in keys && key in attachment
      requires ready != {} && ready <= ValidOps(key.role)
      modifies this, key, key.channel, ids, attachment[key].Objects()
      ensures Valid() && Dispatched(key, ready, env, outcome)
    {
      ghost var p := attachment[key];
      ghost var mine := PipeObjects(key);
      p.KeySide(key);
      assert key in mine && key.channel in mine;
      OutsideFootprintOf(attachment, this, ids);
      outcome := Handle(key, ready, env);
      if outcome.NewClient? {
        ShapeWithClient(outcome.client);
      }
      // No object of another Pipe was modified.
      OldFootprintAllocated(old(attachment));
      DispatchPreservesProgress(old(p.State()), p.SideOf(key.channel).value, ready, env);
      ProgressKept(key);
    }

    /**
     * `Dispatch` for a key with no Pipe: no Pipe changes, and a new client
     * key or a new Pipe may be added.
     */
    method DispatchDetached(key: Key, ready: set<Interest>, env: Env) returns (outcome: Outcome)
      requires Valid() && key in keys && key !in attachment
      requires ready != {} && ready <= ValidOps(key.role)
      modifies this, key, key.channel, ids
      ensures Valid() && Dispatched(key, ready, env, outcome)
    {
      // The key and its channel belong to no Pipe, so no Pipe's object is modified.
      assert key !in Footprint() && key.channel !in Footprint();
      OutsideFootprintOf(attachment, this, ids);
      outcome := Handle(key, ready, env);
      OldFootprintAllocated(old(attachment));
      if key in attachment {
        ShapeWithPipe(key);
        OpenedProgress(old(key.interest), old(key.channel.open), env.first.nread);
        DispatchPreservesProgress(Opened(old(key.interest), old(key.channel.open), env.first.nread), Src, ready, env);
        ProgressWithPipe(key);
      } else {
        if outcome.NewClient? {
          ShapeWithClient(outcome.client);
        }
        ProgressKept(key);
      }
    }
  }
}
