// The parts of java.nio the proxy drives: socket channels that can be closed,
// and selection keys with an interest set that can be cancelled. Only the
// state the proxy reads or changes is modelled; readiness and the bytes on
// the wire are inputs to the operations that use them.

module Selection {
  /** `SelectionKey.OP_READ`, `OP_WRITE`, `OP_CONNECT`, `OP_ACCEPT`. */
  datatype Interest = OpRead | OpWrite | OpConnect | OpAccept

  /** What sits behind a key: the listening socket, an accepted client, or an outbound connection. */
  datatype Role = Listener | Client | Upstream

  /** The operations a channel of each role can be ready for. */
  function ValidOps(role: Role): set<Interest> {
    match role
    case Listener => {OpAccept}
    case Client => {OpRead, OpWrite}
    case Upstream => {OpConnect, OpRead, OpWrite}
  }

  class Channel {
    var open: bool

    constructor ()
      ensures open
    {
      open := true;
    }
  }

  /** A registration of one channel with the selector. */
  class Key {
    const channel: Channel
    const role: Role
    var valid: bool
    var interest: set<Interest>

    /** `channel.register(selector, ops)`. */
    constructor (channel: Channel, role: Role, ops: set<Interest>)
      ensures this.channel == channel && this.role == role
      ensures valid && interest == ops
    {
      this.channel := channel;
      this.role := role;
      valid := true;
      interest := ops;
    }
  }
}
