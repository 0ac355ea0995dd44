/** Constants and message vocabulary shared by the server and its clients
    (common_inc/chat_app_common.h). */
module Common {

  datatype Option<+T> = None | Some(value: T)

  type Fd = int

  const INVALID_FD: Fd := -1
  const FD_LIMIT := 0x8000_0000
  const UNDEF_NAME := "NAME_NOT_DEFINED"
  const WRONG_ACK := "SOMETHING_IS_WRONG"
  const NO_CLIENT := "Client_not_exist"
  const DISCONNECT_CMD := "disconnect"
  const MAX_CLIENT := 20
  const MAX_CLIENT_NAME_LEN := 64
  const MAX_MSG_LEN := 512

  /** Descriptors the kernel hands out: a non-negative C `int`. */
  predicate ValidFd(fd: Fd) {
    0 <= fd < FD_LIMIT
  }

  predicate Three(a: Fd, b: Fd, c: Fd) {
    ValidFd(a) && ValidFd(b) && ValidFd(c) && a != b && a != c && b != c
  }

  datatype Status = Free | Busy | NotFound | ReqPending

  /** The kinds of message the server sends to a client. */
  datatype Kind =
    | ClientRx | SetNameAck | SetNameNack | ClientList
    | ConnectionReqRx | ClientBusy | ClientFree | DeclineAck
    | NotExist | SelfConnect | StatusReqPending | AcceptAck
    | NoMoreFree | NoMoreExist | Termination | Disconnected | ChatReady
    | MaxClientReached

  datatype Msg = Msg(kind: Kind, text: string)

  /** A message on its way to the client behind descriptor `dst`. */
  datatype Envelope = Env(dst: Fd, msg: Msg)

  /** The messages a client sends that some server handler acts on. */
  datatype Request =
    | SetName(name: string)
    | GetList
    | Connect(target: string)
    | Accept
    | Decline
    | Tx(line: string)

  /** Arithmetic on the client counter, a `uint8_t`. */
  function Wrap8(n: int): nat {
    n % 256
  }

  /** A copy of at most `n` characters into a zeroed buffer. */
  function Clip(s: string, n: nat): string {
    if |s| <= n then s else s[..n]
  }
}
