/** The FTP session as a state machine over values: every operation of
    ServerConn is a function from the session before to the session after
    and its result. The class in module Client is proved to compute exactly
    these functions; the properties of the protocol are proved about them
    in module ProtocolLemmas. */
module Protocol {
  import opened FtpTypes
  import opened GoStrings
  import opened Replies
  import Status

  /** The dial options the session consults (DialWith*), as flags. The
      connection, dial function and TLS configuration are only present or
      absent here. */
  datatype Options = Options(
    tlsConfig: bool,    // a TLS configuration was given
    explicitTLS: bool,  // upgrade with AUTH TLS instead of dialling TLS
    disableEPSV: bool,
    disableUTF8: bool,
    disableMLSD: bool,
    netConn: bool,      // a ready control connection was given
    dialFunc: bool)     // a custom dial function was given

  /** What a session cannot change: its options, the server address it
      resolved, whether command lines can be written on the control
      connection, what closing that connection gives, and the listing parser
      of each format (defined outside this model). */
  datatype Env = Env(
    opts: Options,
    host: string,
    writeError: Option<string>,
    closeError: Option<string>,
    parseLine: (ListFormat, string) -> Option<Entry>)

  /** The fields of ServerConn that change, the replies the server has yet
      to send, the outcomes of the data connections yet to be dialled, and
      the events so far. */
  datatype Session = Session(
    features: map<string, string>,
    skipEPSV: bool,
    mlstSupported: bool,
    usePRET: bool,
    replies: seq<Reply>,
    dials: seq<Dial>,
    log: seq<Event>)

  /** A reply read from the control connection. */
  datatype Answer = Answer(code: int, msg: string)

  /** The reason reported when the server has no more replies to give. */
  const EndOfReplies := "EOF"
  /** The reason reported when no more data connections can be dialled. */
  const NoDataConnection := "connection refused"

  /** What every operation does to a session: it only appends to the log,
      leaves no more replies and dial outcomes than there were, and never
      clears the flags skipEPSV, mlstSupported and usePRET once they are
      set. */
  predicate Advances(s: Session, t: Session) {
    && s.log <= t.log
    && |t.replies| <= |s.replies|
    && |t.dials| <= |s.dials|
    && (s.skipEPSV ==> t.skipEPSV)
    && (s.mlstSupported ==> t.mlstSupported)
    && (s.usePRET ==> t.usePRET)
  }

  /** The events appended between two sessions. */
  function Added(s: Session, t: Session): seq<Event>
    requires s.log <= t.log
  {
    t.log[|s.log|..]
  }

  /** The replies left once the first is read (none is consumed when there
      is none). */
  function Drop(replies: seq<Reply>): seq<Reply> {
    if |replies| == 0 then [] else replies[1..]
  }

  // ---------------------------------------------------------------------
  // The control connection

  /** textproto's ReadResponse: one reply, checked against `expected`
      unless that is AnyCode. */
  function Read(s: Session, expected: int): (res: (Session, Result<Answer>))
    ensures res.0 == s.(replies := Drop(s.replies))
    ensures res.1.Ok? <==> |s.replies| > 0 && s.replies[0].Reply?
                           && (expected == Status.AnyCode || s.replies[0].code == expected)
    ensures res.1.Ok? ==> res.1.value == Answer(s.replies[0].code, s.replies[0].msg)
    ensures |s.replies| > 0 && s.replies[0].Reply? && res.1.Err? ==>
              res.1.error == Protocol(s.replies[0].code, s.replies[0].msg)
  {
    if |s.replies| == 0 then (s, Err(Transport(EndOfReplies)))
    else
      var s' := s.(replies := s.replies[1..]);
      match s.replies[0]
      case Broken(reason) => (s', Err(Transport(reason)))
      case Reply(code, msg) =>
        if expected != Status.AnyCode && code != expected then (s', Err(Protocol(code, msg)))
        else (s', Ok(Answer(code, msg)))
  }

  /** textproto's Cmd: one command line written on the control connection. */
  function Write(e: Env, s: Session, line: string): (res: (Session, Option<Error>))
    ensures e.writeError.Some? ==> res == (s, Some(Transport(e.writeError.value)))
    ensures e.writeError.None? ==> res == (s.(log := s.log + [Sent(line)]), None)
  {
    match e.writeError
    case Some(reason) => (s, Some(Transport(reason)))
    case None => (s.(log := s.log + [Sent(line)]), None)
  }

  /** cmd: the line is sent and one reply read; it succeeds only when the
      line could be written and the reply carries the expected code. */
  function Cmd(e: Env, s: Session, expected: int, line: string): (res: (Session, Result<Answer>))
    ensures Advances(s, res.0)
    ensures res.0.features == s.features && res.0.dials == s.dials
    ensures res.0.skipEPSV == s.skipEPSV && res.0.mlstSupported == s.mlstSupported
    ensures res.0.usePRET == s.usePRET
    ensures e.writeError.Some? ==> res == (s, Err(Transport(e.writeError.value)))
    ensures e.writeError.None? ==> res.0.log == s.log + [Sent(line)] && res.0.replies == Drop(s.replies)
    ensures res.1.Ok? <==> e.writeError.None? && |s.replies| > 0 && s.replies[0].Reply?
                           && (expected == Status.AnyCode || s.replies[0].code == expected)
    ensures res.1.Ok? ==> res.1.value == Answer(s.replies[0].code, s.replies[0].msg)
                          && |res.0.replies| < |s.replies|
  {
    var (s1, w) := Write(e, s, line);
    if w.Some? then (s1, Err(w.value)) else Read(s1, expected)
  }

  /** A command whose reply only matters for its code. */
  function Exec(e: Env, s: Session, expected: int, line: string): (res: (Session, Option<Error>))
    ensures res.0 == Cmd(e, s, expected, line).0
    ensures res.1.None? <==> Cmd(e, s, expected, line).1.Ok?
    ensures res.1.Some? ==> res.1.value == Cmd(e, s, expected, line).1.error
  {
    var (s1, r) := Cmd(e, s, expected, line);
    if r.Err? then (s1, Some(r.error)) else (s1, None)
  }

  // ---------------------------------------------------------------------
  // Login and capability negotiation

  /** Auth: USER, then PASS only when the server asks for a password (331).
      The code of the last reply is returned whatever it is. */
  function Auth(e: Env, s: Session, user: string, password: string): (res: (Session, Result<int>))
    ensures Advances(s, res.0)
  {
    var (s1, r1) := Cmd(e, s, Status.AnyCode, "USER " + user);
    if r1.Err? then (s1, Err(r1.error))
    else if r1.value.code == Status.LoggedIn then (s1, Ok(r1.value.code))
    else if r1.value.code == Status.UserOK then
      var (s2, r2) := Cmd(e, s1, Status.AnyCode, "PASS " + password);
      if r2.Err? then (s2, Err(r2.error)) else (s2, Ok(r2.value.code))
    else (s1, Ok(r1.value.code))
  }

  /** feat: a 211 reply adds its feature lines to the table; any other code
      means the server has no extra features. */
  function Feat(e: Env, s: Session): (res: (Session, Option<Error>))
    ensures Advances(s, res.0)
    ensures res.0.skipEPSV == s.skipEPSV && res.0.mlstSupported == s.mlstSupported
    ensures res.0.usePRET == s.usePRET
  {
    var (s1, r) := Cmd(e, s, Status.AnyCode, "FEAT");
    if r.Err? then (s1, Some(r.error))
    else if r.value.code != Status.System then (s1, None)
    else (s1.(features := AddFeatures(s1.features, Split(r.value.msg, '\n'))), None)
  }

  /** setUTF8: "OPTS UTF8 ON", only when the server lists UTF8. */
  function SetUtf8(e: Env, s: Session): (res: (Session, Option<Error>))
    ensures Advances(s, res.0) && res.0.features == s.features
    ensures "UTF8" !in s.features ==> res == (s, None)
  {
    if "UTF8" !in s.features then (s, None)
    else
      var (s1, r) := Cmd(e, s, Status.AnyCode, "OPTS UTF8 ON");
      if r.Err? then (s1, Some(r.error)) else (s1, Utf8Verdict(r.value.code, r.value.msg))
  }

  /** The flags AfterAuth derives from the feature table. It only ever sets
      them. */
  function Capabilities(e: Env, s: Session): (t: Session)
    ensures Advances(s, t)
    ensures t.mlstSupported <==> s.mlstSupported || ("MLST" in s.features && !e.opts.disableMLSD)
    ensures t.usePRET <==> s.usePRET || "PRET" in s.features
    ensures t == s.(mlstSupported := t.mlstSupported, usePRET := t.usePRET)
  {
    s.(mlstSupported := s.mlstSupported || ("MLST" in s.features && !e.opts.disableMLSD),
       usePRET := s.usePRET || "PRET" in s.features)
  }

  /** AfterAuth: FEAT, the flags, then the rest of the negotiation. */
  function AfterAuth(e: Env, s: Session): (res: (Session, Option<Error>))
    ensures Advances(s, res.0)
  {
    var (s1, f) := Feat(e, s);
    if f.Some? then (s1, f) else AfterFeat(e, Capabilities(e, s1))
  }

  /** TYPE I, OPTS UTF8 ON unless disabled, and with a TLS configuration
      PBSZ 0 and PROT P. Those last two replace the outcome of OPTS UTF8 ON:
      its error is returned only without TLS. */
  function AfterFeat(e: Env, s: Session): (res: (Session, Option<Error>))
    ensures Advances(s, res.0)
  {
    var (s1, t) := Exec(e, s, Status.CommandOK, "TYPE I");
    if t.Some? then (s1, t)
    else
      var (s2, u) := Utf8Stage(e, s1);
      if !e.opts.tlsConfig then (s2, u) else ProtectData(e, s2)
  }

  /** OPTS UTF8 ON unless the option disables it. */
  function Utf8Stage(e: Env, s: Session): (res: (Session, Option<Error>))
    ensures Advances(s, res.0)
    ensures e.opts.disableUTF8 ==> res == (s, None)
  {
    if !e.opts.disableUTF8 then SetUtf8(e, s) else (s, None)
  }

  /** PBSZ 0 then PROT P, so that data connections use TLS too. */
  function ProtectData(e: Env, s: Session): (res: (Session, Option<Error>))
    ensures Advances(s, res.0)
  {
    var (s1, p) := Exec(e, s, Status.CommandOK, "PBSZ 0");
    if p.Some? then (s1, p) else Exec(e, s1, Status.CommandOK, "PROT P")
  }

  // ---------------------------------------------------------------------
  // Data connections

  /** epsv: the port of a 229 reply. */
  function Epsv(e: Env, s: Session): (res: (Session, Result<int>))
    ensures res.0 == Cmd(e, s, Status.ExtendedPassiveMode, "EPSV").0
  {
    var (s1, r) := Cmd(e, s, Status.ExtendedPassiveMode, "EPSV");
    if r.Err? then (s1, Err(r.error)) else (s1, ParseEpsv(r.value.msg))
  }

  /** pasv: the host and port of a 227 reply. */
  function Pasv(e: Env, s: Session): (res: (Session, Result<HostPort>))
    ensures res.0 == Cmd(e, s, Status.PassiveMode, "PASV").0
  {
    var (s1, r) := Cmd(e, s, Status.PassiveMode, "PASV");
    if r.Err? then (s1, Err(r.error)) else (s1, ParsePasv(r.value.msg))
  }

  /** getDataConnPort: EPSV unless disabled or once failed, in which case
      the session falls back to PASV for good. EPSV gives only a port; the
      host is the control connection's. An EPSV reply that reaches the slice
      panic is not a failure the fallback sees: the panic leaves before
      skipEPSV is set and before PASV is sent. */
  function DataConnPort(e: Env, s: Session): (res: (Session, Result<HostPort>))
    ensures Advances(s, res.0)
    ensures res.0.features == s.features && res.0.dials == s.dials
    ensures res.0.mlstSupported == s.mlstSupported && res.0.usePRET == s.usePRET
  {
    if !e.opts.disableEPSV && !s.skipEPSV then
      var (s1, r) := Epsv(e, s);
      if r.Ok? then (s1, Ok(HostPort(e.host, r.value)))
      else if r.error.SlicePanic? then (s1, Err(SlicePanic))
      else Pasv(e, s1.(skipEPSV := true))
    else Pasv(e, s)
  }

  /** openDataConn: the address negotiated, then the next dial outcome. */
  function OpenDataConn(e: Env, s: Session): (res: (Session, Result<DataConn>))
    ensures Advances(s, res.0)
    ensures res.0.features == s.features
    ensures res.0.mlstSupported == s.mlstSupported && res.0.usePRET == s.usePRET
  {
    var (s1, r) := DataConnPort(e, s);
    if r.Err? then (s1, Err(r.error))
    else if |s1.dials| == 0 then (s1, Err(Transport(NoDataConnection)))
    else
      var s2 := s1.(dials := s1.dials[1..]);
      match s1.dials[0]
      case DialFailed(reason) => (s2, Err(Transport(reason)))
      case Dialed(conn) => (s2.(log := s2.log + [DataOpen(r.value.host, r.value.port)]), Ok(conn))
  }

  /** Closing a data connection (its own error is not part of the session). */
  function CloseData(s: Session): (t: Session)
    ensures Advances(s, t) && t.log == s.log + [DataClose]
  {
    s.(log := s.log + [DataClose])
  }

  /** The REST line for a resume offset: "REST " and the offset in
      decimal digits, which denote it (`RestLineCarriesOffset`). */
  function RestLine(offset: uint64): (r: string)
    ensures |r| > 5 && r[..5] == "REST " && AllDigits(r[5..])
  {
    "REST " + Itoa(offset)
  }

  /** The digits of the REST line denote the offset. */
  lemma RestLineCarriesOffset(offset: uint64)
    ensures DigitsValue(RestLine(offset)[5..]) == offset as int
  {
    assert RestLine(offset)[5..] == Itoa(offset);
    DigitsValueOfItoa(offset as nat);
  }

  /** REST, only for a non-zero offset; it goes through only on 350. */
  function Rest(e: Env, s: Session, offset: uint64): (res: (Session, Option<Error>))
    ensures Advances(s, res.0)
    ensures res.0.features == s.features && res.0.dials == s.dials
    ensures res.0.mlstSupported == s.mlstSupported && res.0.usePRET == s.usePRET
    ensures offset == 0 ==> res == (s, None)
    ensures offset != 0 ==>
              (res.1.None? <==> e.writeError.None? && |s.replies| > 0 && s.replies[0].Reply?
                                && s.replies[0].code == Status.RequestFilePending)
  {
    if offset == 0 then (s, None) else Exec(e, s, Status.RequestFilePending, RestLine(offset))
  }

  /** cmdDataConnFrom after PRET: open the data connection, REST, send the
      transfer command and read its preliminary reply. Every failure after
      the data connection was opened closes it. */
  function Transfer(e: Env, s: Session, offset: uint64, line: string): (res: (Session, Result<DataConn>))
    ensures Advances(s, res.0)
    ensures res.0.features == s.features
    ensures res.0.mlstSupported == s.mlstSupported && res.0.usePRET == s.usePRET
  {
    var (s1, c) := OpenDataConn(e, s);
    if c.Err? then (s1, c) else SendTransfer(e, s1, c.value, offset, line)
  }

  /** The part of cmdDataConnFrom with the data connection `conn` open:
      REST, the transfer command and its preliminary reply, which must be
      125 or 150. */
  function SendTransfer(e: Env, s: Session, conn: DataConn, offset: uint64, line: string): (res: (Session, Result<DataConn>))
    ensures Advances(s, res.0)
    ensures res.0.features == s.features
    ensures res.0.mlstSupported == s.mlstSupported && res.0.usePRET == s.usePRET
    ensures res.1.Ok? ==> res.1.value == conn
  {
    var (s1, rest) := Rest(e, s, offset);
    if rest.Some? then (CloseData(s1), Err(rest.value))
    else
      var (s2, w) := Write(e, s1, line);
      if w.Some? then (CloseData(s2), Err(w.value))
      else
        var (s3, a) := Read(s2, Status.AnyCode);
        if a.Err? then (CloseData(s3), Err(a.error))
        else if a.value.code != Status.AlreadyOpen && a.value.code != Status.AboutToSend then
          (CloseData(s3), Err(Protocol(a.value.code, a.value.msg)))
        else (s3, Ok(conn))
  }

  /** cmdDataConnFrom: PRET first when the server wants it, whatever its
      reply code. */
  function CmdDataConnFrom(e: Env, s: Session, offset: uint64, line: string): (res: (Session, Result<DataConn>))
    ensures Advances(s, res.0)
    ensures res.0.features == s.features
    ensures res.0.mlstSupported == s.mlstSupported && res.0.usePRET == s.usePRET
  {
    if s.usePRET then
      var (s1, r) := Cmd(e, s, Status.AnyCode, "PRET " + line);
      if r.Err? then (s1, Err(r.error)) else Transfer(e, s1, offset, line)
    else Transfer(e, s, offset, line)
  }

  /** Response.Close: the first call closes the data connection and reads
      the 226 that ends the transfer, whose error wins over the close error;
      later calls do nothing. The second result is the new `closed`. */
  function ResponseClose(s: Session, conn: DataConn, closed: bool): (res: (Session, bool, Option<Error>))
    ensures Advances(s, res.0) && res.1
  {
    if closed then (s, true, None)
    else
      var (s1, r) := Read(CloseData(s), Status.ClosingDataConnection);
      (s1, true, if r.Err? then Some(r.error) else AsTransport(conn.closeError))
  }

  /** What a line scanner over the data connection reports at its end. */
  function ScanError(conn: DataConn): (r: Option<Error>)
    ensures r.None? <==> conn.readError.None?
    ensures r.Some? ==> r.value == Transport(conn.readError.value)
  {
    AsTransport(conn.readError)
  }

  /** NameList: the lines of an NLST transfer. The scanner's error wins over
      the one closing the response gives. */
  function NameList(e: Env, s: Session, path: string): (res: (Session, seq<string>, Option<Error>))
    ensures Advances(s, res.0)
  {
    var (s1, c) := CmdDataConnFrom(e, s, 0, NameListCommand(path));
    if c.Err? then (s1, [], Some(c.error))
    else
      var (s2, _, closeErr) := ResponseClose(s1, c.value, false);
      (s2, c.value.lines, if ScanError(c.value).Some? then ScanError(c.value) else closeErr)
  }

  /** List: MLSD or LIST as the server supports, each line through the
      parser of that format. */
  function List(e: Env, s: Session, path: string): (res: (Session, seq<Entry>, Option<Error>))
    ensures Advances(s, res.0)
  {
    var (s1, c) := CmdDataConnFrom(e, s, 0, ListCommand(s.mlstSupported, path));
    if c.Err? then (s1, [], Some(c.error))
    else
      var entries := ParseLines(e.parseLine, FormatFor(s.mlstSupported), c.value.lines);
      var (s2, _, closeErr) := ResponseClose(s1, c.value, false);
      (s2, entries, if ScanError(c.value).Some? then ScanError(c.value) else closeErr)
  }

  /** RetrFrom: a RETR transfer left open for the caller to read. */
  function RetrFrom(e: Env, s: Session, path: string, offset: uint64): (res: (Session, Result<DataConn>))
    ensures Advances(s, res.0)
  {
    CmdDataConnFrom(e, s, offset, "RETR " + path)
  }

  /** The error of the upload itself: a copy that wrote nothing and failed
      in nothing forces the TLS handshake when the connection has one. */
  function UploadError(s: Session, conn: DataConn, copy: CopyOutcome): (res: (Session, Option<Error>))
    ensures Advances(s, res.0)
  {
    if copy.written == 0 && copy.err.None? && conn.handshake.Handshaking? then
      (s.(log := s.log + [Handshake]), AsTransport(conn.handshake.err))
    else (s, AsTransport(copy.err))
  }

  /** StorFrom: the upload, the close, and always the 226 read; the reply's
      error wins over the upload's, which wins over the close's. */
  function StorFrom(e: Env, s: Session, path: string, copy: CopyOutcome, offset: uint64): (res: (Session, Option<Error>))
    ensures Advances(s, res.0)
  {
    var (s1, c) := CmdDataConnFrom(e, s, offset, "STOR " + path);
    if c.Err? then (s1, Some(c.error))
    else
      var (s2, err) := UploadError(s1, c.value, copy);
      var err2 := if err.Some? then err else AsTransport(c.value.closeError);
      var (s3, r) := Read(CloseData(s2), Status.ClosingDataConnection);
      (s3, if r.Err? then Some(r.error) else err2)
  }

  /** Append: like StorFrom at offset 0, without the handshake. */
  function Append(e: Env, s: Session, path: string, copy: CopyOutcome): (res: (Session, Option<Error>))
    ensures Advances(s, res.0)
  {
    var (s1, c) := CmdDataConnFrom(e, s, 0, "APPE " + path);
    if c.Err? then (s1, Some(c.error))
    else
      var (s2, r) := Read(CloseData(s1), Status.ClosingDataConnection);
      var err := if r.Err? then Some(r.error) else AsTransport(copy.err);
      (s2, if err.Some? then err else AsTransport(c.value.closeError))
  }

  // ---------------------------------------------------------------------
  // Directory commands

  function ChangeDir(e: Env, s: Session, path: string): (res: (Session, Option<Error>))
    ensures Advances(s, res.0) && res.0.features == s.features && res.0.mlstSupported == s.mlstSupported
    ensures res.1.None? ==> |res.0.replies| < |s.replies|
  {
    Exec(e, s, Status.RequestedFileActionOK, "CWD " + path)
  }

  function ChangeDirToParent(e: Env, s: Session): (res: (Session, Option<Error>))
    ensures Advances(s, res.0)
  {
    Exec(e, s, Status.RequestedFileActionOK, "CDUP")
  }

  /** CurrentDir: the quoted path of a 257 reply. */
  function CurrentDir(e: Env, s: Session): (res: (Session, Result<string>))
    ensures Advances(s, res.0) && res.0.features == s.features && res.0.mlstSupported == s.mlstSupported
    ensures res.0 == Cmd(e, s, Status.PathCreated, "PWD").0
  {
    var (s1, r) := Cmd(e, s, Status.PathCreated, "PWD");
    if r.Err? then (s1, Err(r.error)) else (s1, ParsePwd(r.value.msg))
  }

  function Delete(e: Env, s: Session, path: string): (res: (Session, Option<Error>))
    ensures Advances(s, res.0)
  {
    Exec(e, s, Status.RequestedFileActionOK, "DELE " + path)
  }

  function RemoveDir(e: Env, s: Session, path: string): (res: (Session, Option<Error>))
    ensures Advances(s, res.0)
  {
    Exec(e, s, Status.RequestedFileActionOK, "RMD " + path)
  }

  /** Rename: RNFR, and RNTO only once the server answered 350. */
  function Rename(e: Env, s: Session, from: string, to: string): (res: (Session, Option<Error>))
    ensures Advances(s, res.0)
  {
    var (s1, r) := Exec(e, s, Status.RequestFilePending, "RNFR " + from);
    if r.Some? then (s1, r) else Exec(e, s1, Status.RequestedFileActionOK, "RNTO " + to)
  }

  /** RemoveDirRecur: CWD into the directory, PWD, LIST it, remove its
      entries in order, then CDUP and RMD it; the first failure ends it. */
  function RemoveDirRecur(e: Env, s: Session, path: string): (res: (Session, Option<Error>))
    ensures Advances(s, res.0)
    decreases |s.replies|, 1, 0
  {
    var (s1, cwd) := ChangeDir(e, s, path);
    if cwd.Some? then (s1, cwd) else RemoveCurrentDir(e, s1)
  }

  /** RemoveDirRecur once inside the directory. */
  function RemoveCurrentDir(e: Env, s: Session): (res: (Session, Option<Error>))
    ensures Advances(s, res.0)
    decreases |s.replies|, 0, 0
  {
    var (s1, pwd) := CurrentDir(e, s);
    if pwd.Err? then (s1, Some(pwd.error))
    else
      var (s2, entries, listErr) := List(e, s1, pwd.value);
      if listErr.Some? then (s2, listErr)
      else
        var (s3, rm) := RemoveEntries(e, s2, pwd.value, entries);
        if rm.Some? then (s3, rm) else LeaveAndRemove(e, s3, pwd.value)
  }

  /** CDUP, then RMD of the directory just emptied. */
  function LeaveAndRemove(e: Env, s: Session, dir: string): (res: (Session, Option<Error>))
    ensures Advances(s, res.0)
  {
    var (s1, up) := ChangeDirToParent(e, s);
    if up.Some? then (s1, up) else RemoveDir(e, s1, dir)
  }

  /** The loop of RemoveDirRecur over the entries of directory `dir`:
      folders are removed recursively, anything else with DELE, "." and ".."
      are skipped. */
  function RemoveEntries(e: Env, s: Session, dir: string, entries: seq<Entry>): (res: (Session, Option<Error>))
    ensures Advances(s, res.0)
    decreases |s.replies|, 3, |entries|
  {
    if |entries| == 0 then (s, None)
    else
      var (s1, r) := RemoveEntry(e, s, dir, entries[0]);
      if r.Some? then (s1, r) else RemoveEntries(e, s1, dir, entries[1..])
  }

  /** One iteration of that loop. */
  function RemoveEntry(e: Env, s: Session, dir: string, entry: Entry): (res: (Session, Option<Error>))
    ensures Advances(s, res.0)
    decreases |s.replies|, 2, 0
  {
    if !IsRemovable(entry) then (s, None)
    else if entry.kind == Folder then RemoveDirRecur(e, s, dir + "/" + entry.name)
    else Delete(e, s, entry.name)
  }

  // ---------------------------------------------------------------------
  // Opening and closing the session

  /** Quit: QUIT, and the control connection is closed whether or not the
      line could be written. */
  function Quit(e: Env, s: Session): (res: (Session, Option<Error>))
    ensures Advances(s, res.0)
  {
    var (s1, _) := Write(e, s, "QUIT");
    var s2 := s1.(log := s1.log + [ControlClose]);
    match (e.writeError, e.closeError)
    case (Some(q), Some(c)) => (s2, Some(Quitting(q, c)))
    case (Some(q), None) => (s2, Some(Transport(q)))
    case (None, c) => (s2, AsTransport(c))
  }

  /** Where the control connection comes from. */
  datatype Source = GivenConn | CustomDial | ImplicitTls | PlainTcp

  /** Dial's choice of control connection: a given connection, else the
      custom dial function, else a TLS dial when TLS is not explicit, else a
      plain TCP dial. */
  function ControlSource(o: Options): (r: Source)
    ensures r == GivenConn <==> o.netConn
    ensures r == CustomDial <==> !o.netConn && o.dialFunc
    ensures r == ImplicitTls <==> !o.netConn && !o.dialFunc && o.tlsConfig && !o.explicitTLS
    ensures r == PlainTcp <==> !o.netConn && !o.dialFunc && !(o.tlsConfig && !o.explicitTLS)
  {
    if o.netConn then GivenConn
    else if o.dialFunc then CustomDial
    else if o.tlsConfig && !o.explicitTLS then ImplicitTls
    else PlainTcp
  }

  /** A fresh session over a server's scripted replies and data connections. */
  function Fresh(replies: seq<Reply>, dials: seq<Dial>): Session {
    Session(map[], false, false, false, replies, dials, [])
  }

  /** Dial after the control connection is established (`connectError` is
      the failure to establish it): the 220 greeting, and with explicit TLS
      AUTH TLS expecting 234 before the connection is upgraded. On either
      failure the session is quit. */
  function Dial(e: Env, connectError: Option<string>, replies: seq<Reply>, dials: seq<Dial>): (res: (Session, Option<Error>))
    ensures Advances(Fresh(replies, dials), res.0)
  {
    var s := Fresh(replies, dials);
    if connectError.Some? then (s, Some(Transport(connectError.value)))
    else
      var (s1, g) := Read(s, Status.Ready);
      if g.Err? then (Quit(e, s1).0, Some(g.error))
      else if !e.opts.explicitTLS then (s1, None)
      else
        var (s2, a) := Exec(e, s1, Status.AuthOK, "AUTH TLS");
        if a.Some? then (Quit(e, s2).0, a)
        else (s2.(log := s2.log + [TlsUpgrade]), None)
  }
}
