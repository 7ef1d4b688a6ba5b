/** Values shared by every part of the FTP client model: errors, parsed
    control-channel replies, the scripted data connections and the events
    a session emits. */
module FtpTypes {

  datatype Option<+T> = None | Some(value: T)

  /** The unsigned 64-bit integers (Go's uint64, used for resume offsets). */
  type uint64 = x: int | 0 <= x < 0x1_0000_0000_0000_0000

  /** The errors a session operation can return. */
  datatype Error =
    | Transport(reason: string)        // a network failure on the control or a data channel
    | Protocol(code: int, msg: string) // a reply with an unexpected code (textproto.Error)
    | Format(text: string)             // a malformed PASV, EPSV or PWD reply
    | ServerText(text: string)         // a plain error carrying the server's own message
    | NumError(input: string)          // strconv.Atoi rejected its input
    | SlicePanic                       // a Go slice expression with low > high: a runtime panic
    | Quitting(quit: string, close: string) // QUIT could not be written and closing failed too

  datatype Result<+T> = Ok(value: T) | Err(error: Error)

  /** One control-channel reply, already framed and parsed, or the failure
      that prevented reading it. */
  datatype Reply = Reply(code: int, msg: string) | Broken(reason: string)

  /** Whether a data connection can be asked to complete a TLS handshake,
      and what doing so gives. */
  datatype Handshaker = NoHandshake | Handshaking(err: Option<string>)

  /** A data connection as the model sees it: the lines a line scanner reads
      from it, the read error that ends the scan (if any), what closing it
      gives, and its handshake capability. */
  datatype DataConn = DataConn(
    lines: seq<string>,
    readError: Option<string>,
    closeError: Option<string>,
    handshake: Handshaker)

  /** The outcome of dialling one data connection. */
  datatype Dial = Dialed(conn: DataConn) | DialFailed(reason: string)

  /** What a session does to the outside world, in order. */
  datatype Event =
    | Sent(line: string)              // one command line written on the control channel
    | DataOpen(host: string, port: int)
    | DataClose
    | Handshake                       // an explicit TLS handshake on a data connection
    | TlsUpgrade                      // the control connection re-wrapped in TLS
    | ControlClose

  datatype HostPort = HostPort(host: string, port: int)

  datatype EntryType = File | Folder | Link

  /** One directory entry as the listing parsers produce it (its timestamp
      is not modelled). */
  datatype Entry = Entry(name: string, target: string, kind: EntryType, size: nat)

  /** The two listing grammars: MLSD (RFC 3659) and ls-style LIST. */
  datatype ListFormat = Mlsd | Ls

  /** The io.Copy outcome of an upload: bytes written and the copy error. */
  datatype CopyOutcome = CopyOutcome(written: nat, err: Option<string>)

  /** A transport-level reason as an optional session error. */
  function AsTransport(reason: Option<string>): (r: Option<Error>)
    ensures r.None? <==> reason.None?
    ensures reason.Some? ==> r.value == Transport(reason.value)
  {
    match reason
    case None => None
    case Some(m) => Some(Transport(m))
  }
}
