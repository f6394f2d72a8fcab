/**
 * Vocabulary shared with the networking and protocol library that the STUN
 * client is built on: optional values, error returns, socket addresses,
 * transports and what an external engine reports when it is allocated and
 * started. The library itself is not part of this model; only these values
 * cross its boundary.
 */
module Net {

  datatype Option<+T> = None | Some(value: T)

  datatype Result<+T> = Success(value: T) | Failure(error: int)

  /** C errno values; 0 means success. */
  type Errno = int

  /** EPROTONOSUPPORT as Linux numbers it. */
  const EPROTONOSUPPORT: Errno := 93

  /**
   * A socket address. The zero value stands for a zero-initialised
   * `struct sa`, which is what every address of the client holds until
   * something is stored in it.
   */
  datatype Addr = Addr(ip: nat, port: nat)

  const ZeroAddr: Addr := Addr(0, 0)

  /** The library's "address and port are both set" test (SA_ALL). */
  predicate IsSet(a: Addr) {
    a.ip != 0 && a.port != 0
  }

  /**
   * The transport protocol of the run. `Unspecified` is the zero value the
   * protocol field has when neither -u nor -t was given.
   */
  datatype Transport = Unspecified | Udp | Tcp

  /**
   * What a protocol engine's two set-up calls return: the error of its
   * allocation and the error of its start (for engines that allocate and
   * start in one call, only `allocErr` is read).
   */
  datatype StartOutcome = StartOutcome(allocErr: Errno, startErr: Errno)

  /** The two sockets of the relay bridge. */
  datatype Socket = RelaySocket | LoopSocket

  /** One send request handed to a socket: which socket, to whom, what. */
  datatype Datagram = Datagram(via: Socket, dst: Addr, payload: seq<bv8>)
}
