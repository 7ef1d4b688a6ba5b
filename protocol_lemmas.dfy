/** Properties of the FTP session: what each operation sends, in which
    order, and what it makes of the server's replies. */
module ProtocolLemmas {
  import opened FtpTypes
  import opened GoStrings
  import opened Replies
  import opened Protocol
  import Status
  import ReplyLemmas

  /** The reply at position `i` of the script is a well-formed reply. */
  predicate Answered(replies: seq<Reply>, i: nat) {
    i < |replies| && replies[i].Reply?
  }

  /** The reply at position `i` of the script carries `code`. */
  predicate HasCode(replies: seq<Reply>, i: nat, code: int) {
    Answered(replies, i) && replies[i].code == code
  }

  /** Only command lines were written. */
  predicate SentOnly(events: seq<Event>) {
    forall i :: 0 <= i < |events| ==> events[i].Sent?
  }

  // ---------------------------------------------------------------------
  // Login

  /** USER is always sent first and PASS only when the server answered 331
      to it. */
  lemma AuthSendsPassOnlyOnUserOK(e: Env, s: Session, user: string, password: string)
    requires e.writeError.None?
    ensures Auth(e, s, user, password).0.log ==
            s.log + [Sent("USER " + user)]
            + (if HasCode(s.replies, 0, Status.UserOK) then [Sent("PASS " + password)] else [])
  {
  }

  /** Auth succeeds whenever the replies it reads are well formed, whatever
      their codes, and returns the code of the last one uninterpreted. */
  lemma AuthReturnsLastCode(e: Env, s: Session, user: string, password: string)
    ensures Auth(e, s, user, password).1.Ok? <==>
            e.writeError.None? && Answered(s.replies, 0)
            && (HasCode(s.replies, 0, Status.UserOK) ==> Answered(s.replies, 1))
    ensures Auth(e, s, user, password).1.Ok? ==>
            Auth(e, s, user, password).1.value ==
            (if s.replies[0].code == Status.UserOK then s.replies[1].code else s.replies[0].code)
  {
  }

  // ---------------------------------------------------------------------
  // FEAT and OPTS UTF8 ON

  /** A reply other than 211 leaves the feature table as it is and is no
      error; a 211 reply adds the feature lines of its message; a failure
      leaves the table as it is. */
  lemma FeatOutcome(e: Env, s: Session)
    ensures var (t, err) := Feat(e, s);
            && (err.Some? ==> t.features == s.features)
            && (err.None? <==> e.writeError.None? && Answered(s.replies, 0))
            && (err.None? && s.replies[0].code != Status.System ==> t.features == s.features)
            && (err.None? && s.replies[0].code == Status.System ==>
                  t.features == AddFeatures(s.features, Split(s.replies[0].msg, '\n')))
  {
  }

  /** OPTS UTF8 ON is sent only when the server lists UTF8; then 200, 202,
      501 and 504 are success and any other code an error carrying the
      server's message. */
  lemma SetUtf8Outcome(e: Env, s: Session)
    requires e.writeError.None?
    ensures "UTF8" !in s.features ==> SetUtf8(e, s) == (s, None)
    ensures "UTF8" in s.features ==> SetUtf8(e, s).0.log == s.log + [Sent("OPTS UTF8 ON")]
    ensures "UTF8" in s.features && Answered(s.replies, 0) ==>
              (SetUtf8(e, s).1.None? <==> s.replies[0].code in {200, 202, 501, 504})
    ensures "UTF8" in s.features && Answered(s.replies, 0) && SetUtf8(e, s).1.Some? ==>
              SetUtf8(e, s).1.value == ServerText(s.replies[0].msg)
  {
  }

  // ---------------------------------------------------------------------
  // Commands with two steps

  /** RNTO is sent only once RNFR got 350. */
  lemma RenameSendsRntoOnlyAfterPending(e: Env, s: Session, from: string, to: string)
    requires e.writeError.None?
    ensures Rename(e, s, from, to).0.log ==
            s.log + [Sent("RNFR " + from)]
            + (if HasCode(s.replies, 0, Status.RequestFilePending) then [Sent("RNTO " + to)] else [])
    ensures Rename(e, s, from, to).1.None? <==>
            HasCode(s.replies, 0, Status.RequestFilePending) && HasCode(s.replies, 1, Status.RequestedFileActionOK)
  {
  }

  /** Quit closes the control connection whether or not QUIT could be
      written, and fails when either the write or the close failed. */
  lemma QuitAlwaysCloses(e: Env, s: Session)
    ensures Quit(e, s).0.log ==
            s.log + (if e.writeError.None? then [Sent("QUIT")] else []) + [ControlClose]
    ensures Quit(e, s).0.replies == s.replies
    ensures Quit(e, s).1.None? <==> e.writeError.None? && e.closeError.None?
    ensures e.writeError.Some? && e.closeError.Some? ==>
              Quit(e, s).1 == Some(Quitting(e.writeError.value, e.closeError.value))
  {
  }

  // ---------------------------------------------------------------------
  // Response.Close

  /** The first close closes the data connection and reads the 226; its
      reply error wins over the close error, and the response is marked
      closed even when this fails. */
  lemma ResponseCloseFirst(s: Session, conn: DataConn)
    ensures var (t, closed, err) := ResponseClose(s, conn, false);
            && closed
            && t.log == s.log + [DataClose]
            && t.replies == Drop(s.replies)
            && (!HasCode(s.replies, 0, Status.ClosingDataConnection) ==>
                  err == Some(Read(s, Status.ClosingDataConnection).1.error))
            && (HasCode(s.replies, 0, Status.ClosingDataConnection) ==>
                  err == AsTransport(conn.closeError))
  {
  }

  /** A second close does nothing: no close, no read, no error. */
  lemma ResponseCloseIdempotent(s: Session, conn: DataConn, closed: bool)
    ensures var (t, c, _) := ResponseClose(s, conn, closed);
            ResponseClose(t, conn, c) == (t, true, None)
  {
  }

  // ---------------------------------------------------------------------
  // Dial

  /** Without a 220 greeting the session is quit and the dial fails. */
  lemma DialNeedsGreeting(e: Env, replies: seq<Reply>, dials: seq<Dial>)
    requires !HasCode(replies, 0, Status.Ready)
    ensures Protocol.Dial(e, None, replies, dials).1.Some?
    ensures var log := Protocol.Dial(e, None, replies, dials).0.log;
            |log| > 0 && log[|log| - 1] == ControlClose
  {
  }

  /** A dial succeeds on the greeting alone, or with explicit TLS once AUTH
      TLS got 234, after which the connection is upgraded. */
  lemma DialOutcome(e: Env, replies: seq<Reply>, dials: seq<Dial>)
    ensures Protocol.Dial(e, None, replies, dials).1.None? <==>
            HasCode(replies, 0, Status.Ready)
            && (e.opts.explicitTLS ==> e.writeError.None? && HasCode(replies, 1, Status.AuthOK))
    ensures Protocol.Dial(e, None, replies, dials).1.None? ==>
            Protocol.Dial(e, None, replies, dials).0.log ==
            (if e.opts.explicitTLS then [Sent("AUTH TLS"), TlsUpgrade] else [])
    ensures e.opts.explicitTLS && HasCode(replies, 0, Status.Ready) && Protocol.Dial(e, None, replies, dials).1.Some? ==>
            var log := Protocol.Dial(e, None, replies, dials).0.log;
            |log| > 0 && log[|log| - 1] == ControlClose
  {
  }

  // ---------------------------------------------------------------------
  // AfterAuth

  /** The commands after FEAT change neither the feature table nor the flags. */
  lemma AfterFeatKeepsFlags(e: Env, s: Session)
    ensures AfterFeat(e, s).0.features == s.features
    ensures AfterFeat(e, s).0.mlstSupported == s.mlstSupported
    ensures AfterFeat(e, s).0.usePRET == s.usePRET
  {
  }

  /** Once FEAT went through, MLSD is used iff it was before or the server
      lists MLST and MLSD is not disabled, and PRET iff it was before or the
      server lists PRET. */
  lemma AfterAuthFlags(e: Env, s: Session)
    requires Feat(e, s).1.None?
    ensures var features := Feat(e, s).0.features;
            && (AfterAuth(e, s).0.mlstSupported <==>
                  s.mlstSupported || ("MLST" in features && !e.opts.disableMLSD))
            && (AfterAuth(e, s).0.usePRET <==> s.usePRET || "PRET" in features)
  {
    AfterFeatKeepsFlags(e, Capabilities(e, Feat(e, s).0));
  }

  /** An illustration of `Utf8OutcomeReplacedWithTls` on one script: with a
      TLS configuration, a server that lists UTF8 and refuses OPTS UTF8 ON
      with 550 still gives a session that negotiated without error, PBSZ and
      PROT being sent regardless. */
  lemma Utf8ErrorLostWithTls(e: Env, s: Session, m1: string, m2: string, m3: string, m4: string)
    requires e.opts.tlsConfig && !e.opts.disableUTF8 && e.writeError.None?
    requires "UTF8" in s.features
    requires s.replies == [Reply(200, m1), Reply(550, m2), Reply(200, m3), Reply(200, m4)]
    ensures SetUtf8(e, Cmd(e, s, Status.CommandOK, "TYPE I").0).1 == Some(ServerText(m2))
    ensures AfterFeat(e, s).1.None?
    ensures AfterFeat(e, s).0.log ==
            s.log + [Sent("TYPE I"), Sent("OPTS UTF8 ON"), Sent("PBSZ 0"), Sent("PROT P")]
  {
  }

  /** Without TLS the outcome of OPTS UTF8 ON is the outcome of the
      negotiation once TYPE I went through. */
  lemma Utf8ErrorKeptWithoutTls(e: Env, s: Session)
    requires !e.opts.tlsConfig && !e.opts.disableUTF8
    requires Exec(e, s, Status.CommandOK, "TYPE I").1.None?
    ensures AfterFeat(e, s).1 == SetUtf8(e, Exec(e, s, Status.CommandOK, "TYPE I").0).1
  {
  }

  /** With a TLS configuration, once TYPE I went through, the negotiation
      ends with PBSZ 0 and PROT P after OPTS UTF8 ON whatever that gave:
      its outcome is replaced by theirs. */
  lemma Utf8OutcomeReplacedWithTls(e: Env, s: Session)
    requires e.opts.tlsConfig
    requires Exec(e, s, Status.CommandOK, "TYPE I").1.None?
    ensures AfterFeat(e, s) == ProtectData(e, Utf8Stage(e, Exec(e, s, Status.CommandOK, "TYPE I").0).0)
  {
  }

  /** PBSZ 0 is sent first and PROT P only once PBSZ 0 got 200; protection
      succeeds iff both got 200. */
  lemma ProtectDataOutcome(e: Env, s: Session)
    ensures e.writeError.Some? ==> ProtectData(e, s) == (s, Some(Transport(e.writeError.value)))
    ensures e.writeError.None? ==>
              var (t, err) := ProtectData(e, s);
              && t.log == s.log + [Sent("PBSZ 0")]
                          + (if HasCode(s.replies, 0, Status.CommandOK) then [Sent("PROT P")] else [])
              && t.replies == (if HasCode(s.replies, 0, Status.CommandOK) then Drop(Drop(s.replies))
                               else Drop(s.replies))
              && (err.None? <==> HasCode(s.replies, 0, Status.CommandOK) && HasCode(s.replies, 1, Status.CommandOK))
  {
    if e.writeError.None? && HasCode(s.replies, 0, Status.CommandOK) {
      assert Drop(s.replies) == s.replies[1..];
      assert HasCode(s.replies, 1, Status.CommandOK) <==> HasCode(Drop(s.replies), 0, Status.CommandOK);
    }
  }

  // ---------------------------------------------------------------------
  // The data port: EPSV, falling back to PASV for good

  /** The negotiation sends at most EPSV then PASV, and nothing else. */
  lemma DataConnPortSends(e: Env, s: Session)
    ensures Added(s, DataConnPort(e, s).0) in
            {[], [Sent("EPSV")], [Sent("PASV")], [Sent("EPSV"), Sent("PASV")]}
  {
    var t := DataConnPort(e, s).0;
    if e.writeError.Some? {
      assert Added(s, t) == [];
    } else if !e.opts.disableEPSV && !s.skipEPSV {
      var s1 := Epsv(e, s).0;
      assert s1.log == s.log + [Sent("EPSV")];
      if Epsv(e, s).1.Err? && Epsv(e, s).1 != Err(SlicePanic) {
        assert t.log == s1.log + [Sent("PASV")];
        assert Added(s, t) == [Sent("EPSV"), Sent("PASV")];
      } else {
        assert Added(s, t) == [Sent("EPSV")];
      }
    } else {
      assert Added(s, t) == [Sent("PASV")];
    }
  }

  /** With EPSV disabled, or once it failed, only PASV is sent. */
  lemma PasvOnlyOnceSkipped(e: Env, s: Session)
    requires e.opts.disableEPSV || s.skipEPSV
    ensures DataConnPort(e, s) == Pasv(e, s)
    ensures Added(s, DataConnPort(e, s).0) <= [Sent("PASV")]
  {
  }

  /** EPSV failing makes the session skip it from then on; it is the only
      way skipEPSV is set. A slice panic in the EPSV parser is not such a
      failure (`EpsvPanicEscapes`). */
  lemma EpsvFailureIsSticky(e: Env, s: Session)
    ensures DataConnPort(e, s).0.skipEPSV <==>
            s.skipEPSV || (!e.opts.disableEPSV && Epsv(e, s).1.Err? && Epsv(e, s).1 != Err(SlicePanic))
  {
  }

  /** An EPSV reply that makes the parser panic leaves getDataConnPort at
      once: the panic is the outcome, skipEPSV stays clear and PASV is not
      sent. */
  lemma EpsvPanicEscapes(e: Env, s: Session)
    requires !e.opts.disableEPSV && !s.skipEPSV && Epsv(e, s).1 == Err(SlicePanic)
    ensures DataConnPort(e, s) == (Epsv(e, s).0, Err(SlicePanic))
    ensures !DataConnPort(e, s).0.skipEPSV
    ensures Added(s, DataConnPort(e, s).0) == [Sent("EPSV")]
    ensures OpenDataConn(e, s) == (Epsv(e, s).0, Err(SlicePanic))
  {
  }

  /** The reply "(|||)" is one that reaches the panic: EPSV is sent, no
      PASV follows and nothing is dialled. */
  lemma EpsvEmptyPortReplyPanics(e: Env, s: Session)
    requires !e.opts.disableEPSV && !s.skipEPSV && e.writeError.None?
    requires |s.replies| > 0
    requires s.replies[0] == Reply(Status.ExtendedPassiveMode, "Entering Extended Passive Mode (|||)")
    ensures DataConnPort(e, s).1 == Err(SlicePanic)
    ensures DataConnPort(e, s).0.log == s.log + [Sent("EPSV")]
    ensures OpenDataConn(e, s).1 == Err(SlicePanic)
    ensures OpenDataConn(e, s).0.dials == s.dials
  {
    ReplyLemmas.EpsvEmptyPortPanics();
    assert Epsv(e, s).1 == Err(SlicePanic);
    EpsvPanicEscapes(e, s);
  }

  /** A usable EPSV reply gives the control connection's host and the port
      between "|||" and the last "|". */
  lemma EpsvGivesControlHost(e: Env, s: Session, pre: string, post: string, port: nat)
    requires !e.opts.disableEPSV && !s.skipEPSV && e.writeError.None?
    requires '|' !in pre && '|' !in post
    requires |s.replies| > 0 && s.replies[0] == Reply(Status.ExtendedPassiveMode, pre + "|||" + Itoa(port) + "|" + post)
    requires port <= MaxInt64
    ensures DataConnPort(e, s).1 == Ok(HostPort(e.host, port))
    ensures !DataConnPort(e, s).0.skipEPSV
  {
    ReplyLemmas.EpsvRoundTrip(pre, post, port);
  }

  /** Opening a data connection logs the negotiation and, when the dial
      succeeds, the address it opened. */
  lemma OpenDataConnLog(e: Env, s: Session)
    ensures var (t, c) := OpenDataConn(e, s);
            var (n, p) := DataConnPort(e, s);
            && (c.Ok? ==> p.Ok? && t.log == n.log + [DataOpen(p.value.host, p.value.port)])
            && (c.Err? ==> t.log == n.log)
  {
  }

  // ---------------------------------------------------------------------
  // Transfers: PRET, the data port, REST, the command

  /** The REST line, present only for a non-zero offset. */
  function RestEvents(offset: uint64): (r: seq<Event>)
    ensures |r| <= 1 && SentOnly(r)
    ensures r == [] <==> offset == 0
  {
    if offset == 0 then [] else [Sent(RestLine(offset))]
  }

  /** The events of a failure after the data connection was opened: command
      lines, the one opening, more command lines, and the one closing last. */
  predicate OpenedThenClosed(events: seq<Event>) {
    && |events| >= 2
    && events[|events| - 1] == DataClose
    && exists k :: 0 <= k < |events| - 1 && events[k].DataOpen?
                   && SentOnly(events[..k]) && SentOnly(events[k + 1..|events| - 1])
  }

  /** Command lines sent before keep that shape. */
  lemma OpenedThenClosedAfterSent(a: seq<Event>, b: seq<Event>)
    requires SentOnly(a) && OpenedThenClosed(b)
    ensures OpenedThenClosed(a + b)
  {
    var k :| 0 <= k < |b| - 1 && b[k].DataOpen? && SentOnly(b[..k]) && SentOnly(b[k + 1..|b| - 1]);
    var ab := a + b;
    assert ab[..|a| + k] == a + b[..k];
    assert ab[|a| + k + 1..|ab| - 1] == b[k + 1..|b| - 1];
    assert ab[|a| + k] == b[k];
  }

  /** On success the data port is negotiated first, then the data
      connection opened, then REST sent only for a non-zero offset, and the
      transfer command last; nothing is closed. */
  lemma TransferSuccessOrder(e: Env, s: Session, offset: uint64, line: string)
    requires Transfer(e, s, offset, line).1.Ok?
    ensures var (n, p) := DataConnPort(e, s);
            && p.Ok?
            && Transfer(e, s, offset, line).0.log ==
               n.log + [DataOpen(p.value.host, p.value.port)] + RestEvents(offset) + [Sent(line)]
  {
  }

  /** Once the data connection is open and REST went through, the transfer
      succeeds iff the command gets 125 or 150; any other code is an error
      carrying that code and message. */
  lemma TransferNeedsPreliminaryReply(e: Env, s: Session, conn: DataConn, offset: uint64, line: string)
    requires e.writeError.None?
    requires Rest(e, s, offset).1.None?
    ensures var rs := Rest(e, s, offset).0.replies;
            SendTransfer(e, s, conn, offset, line).1.Ok? <==>
              HasCode(rs, 0, Status.AlreadyOpen) || HasCode(rs, 0, Status.AboutToSend)
    ensures var rs := Rest(e, s, offset).0.replies;
            Answered(rs, 0) && rs[0].code != Status.AlreadyOpen && rs[0].code != Status.AboutToSend ==>
              SendTransfer(e, s, conn, offset, line).1 == Err(Protocol(rs[0].code, rs[0].msg))
  {
  }

  /** The data port negotiation only sends command lines. */
  lemma DataConnPortSentOnly(e: Env, s: Session)
    ensures SentOnly(Added(s, DataConnPort(e, s).0))
  {
    DataConnPortSends(e, s);
  }

  /** REST writes its line, and nothing else, when it can write at all. */
  lemma RestLog(e: Env, s: Session, offset: uint64)
    ensures Rest(e, s, offset).0.log == s.log + (if e.writeError.None? then RestEvents(offset) else [])
  {
  }

  /** A well-formed reply to REST other than 350 is the error that aborts
      the transfer, carrying that reply's code and message. */
  lemma RestRefused(e: Env, s: Session, offset: uint64)
    requires offset != 0 && e.writeError.None?
    requires |s.replies| > 0 && s.replies[0].Reply? && s.replies[0].code != Status.RequestFilePending
    ensures Rest(e, s, offset).1 == Some(Protocol(s.replies[0].code, s.replies[0].msg))
  {
  }

  /** `b` extends `a` with command lines and then the closing of the data
      connection. */
  predicate ClosedAfter(a: seq<Event>, b: seq<Event>) {
    a < b && b[|b| - 1] == DataClose && SentOnly(b[|a|..|b| - 1])
  }

  /** `b` extends `a` with command lines and then the opening of a data
      connection. */
  predicate OpenedAfter(a: seq<Event>, b: seq<Event>) {
    a < b && b[|b| - 1].DataOpen? && SentOnly(b[|a|..|b| - 1])
  }

  /** A transfer failing after the data connection opened sends at most
      command lines and then closes it. */
  lemma SendTransferFailureCloses(e: Env, s: Session, conn: DataConn, offset: uint64, line: string)
    requires SendTransfer(e, s, conn, offset, line).1.Err?
    ensures ClosedAfter(s.log, SendTransfer(e, s, conn, offset, line).0.log)
  {
    RestLog(e, s, offset);
    var sent: seq<Event>;
    if e.writeError.Some? {
      sent := [];
    } else if Rest(e, s, offset).1.Some? {
      sent := RestEvents(offset);
    } else {
      sent := RestEvents(offset) + [Sent(line)];
      SentOnlyAppend(RestEvents(offset), [Sent(line)]);
    }
    assert SendTransfer(e, s, conn, offset, line).0.log == s.log + sent + [DataClose];
    ClosedAfterSent(s.log, sent);
  }

  /** Command lines and then the closing make a ClosedAfter extension. */
  lemma ClosedAfterSent(a: seq<Event>, sent: seq<Event>)
    requires SentOnly(sent)
    ensures ClosedAfter(a, a + sent + [DataClose])
  {
    var b := a + sent + [DataClose];
    assert b[|a|..|b| - 1] == sent;
  }

  /** Command lines, one opening, command lines, the closing. */
  lemma OpenedThenClosedShape(before: seq<Event>, open: Event, after: seq<Event>)
    requires SentOnly(before) && open.DataOpen? && SentOnly(after)
    ensures OpenedThenClosed(before + [open] + after + [DataClose])
  {
    var ev := before + [open] + after + [DataClose];
    var k := |before|;
    assert ev[..k] == before;
    assert ev[k + 1..|ev| - 1] == after;
  }

  /** A data connection that opened was logged last, after command lines
      only. */
  lemma OpenDataConnOpened(e: Env, s: Session)
    requires OpenDataConn(e, s).1.Ok?
    ensures OpenedAfter(s.log, OpenDataConn(e, s).0.log)
  {
    DataConnPortSentOnly(e, s);
    OpenDataConnLog(e, s);
    var n := DataConnPort(e, s).0;
    var t := OpenDataConn(e, s).0;
    assert t.log[|s.log|..|t.log| - 1] == Added(s, n);
  }

  /** A data connection that did not open leaves only command lines. */
  lemma OpenDataConnFailed(e: Env, s: Session)
    requires OpenDataConn(e, s).1.Err?
    ensures SentOnly(Added(s, OpenDataConn(e, s).0))
  {
    DataConnPortSentOnly(e, s);
    OpenDataConnLog(e, s);
  }

  /** Three logs, each extending the one before: command lines and an
      opening, then command lines and a closing. */
  lemma OpenThenCloseLogs(a: seq<Event>, b: seq<Event>, c: seq<Event>)
    requires OpenedAfter(a, b) && ClosedAfter(b, c)
    ensures OpenedThenClosed(c[|a|..])
  {
    assert c[|a|..] == b[|a|..|b| - 1] + [b[|b| - 1]] + c[|b|..|c| - 1] + [DataClose];
    OpenedThenClosedShape(b[|a|..|b| - 1], b[|b| - 1], c[|b|..|c| - 1]);
  }

  /** Once the data connection is open, the transfer is SendTransfer. */
  lemma TransferOnceOpen(e: Env, s: Session, offset: uint64, line: string)
    requires OpenDataConn(e, s).1.Ok?
    ensures Transfer(e, s, offset, line) ==
            SendTransfer(e, OpenDataConn(e, s).0, OpenDataConn(e, s).1.value, offset, line)
  {
  }

  /** A transfer that fails once the data connection is open closes it,
      once, as its last event. */
  lemma TransferFailureCloses(e: Env, s: Session, offset: uint64, line: string)
    requires OpenDataConn(e, s).1.Ok? && Transfer(e, s, offset, line).1.Err?
    ensures OpenedThenClosed(Added(s, Transfer(e, s, offset, line).0))
  {
    TransferOnceOpen(e, s, offset, line);
    OpenDataConnOpened(e, s);
    var s1 := OpenDataConn(e, s).0;
    SendTransferFailureCloses(e, s1, OpenDataConn(e, s).1.value, offset, line);
    OpenThenCloseLogs(s.log, s1.log, Transfer(e, s, offset, line).0.log);
  }

  /** A transfer that fails before the data connection is open has only
      sent command lines, and closes nothing. */
  lemma TransferFailureBeforeOpen(e: Env, s: Session, offset: uint64, line: string)
    requires OpenDataConn(e, s).1.Err?
    ensures Transfer(e, s, offset, line).1.Err?
    ensures SentOnly(Added(s, Transfer(e, s, offset, line).0))
  {
    OpenDataConnFailed(e, s);
  }

  /** The session cmdDataConnFrom hands to the transfer: after PRET when the
      server wants it. */
  function AfterPret(e: Env, s: Session, line: string): Session {
    if s.usePRET then Cmd(e, s, Status.AnyCode, "PRET " + line).0 else s
  }

  /** PRET accepts any code: with a well-formed reply the transfer goes on. */
  lemma PretAcceptsAnyCode(e: Env, s: Session, offset: uint64, line: string)
    requires s.usePRET && e.writeError.None? && Answered(s.replies, 0)
    ensures CmdDataConnFrom(e, s, offset, line) == Transfer(e, AfterPret(e, s, line), offset, line)
  {
  }

  /** What cmdDataConnFrom logs before the transfer starts, and that the
      transfer starts unless PRET failed. */
  lemma AfterPretLog(e: Env, s: Session, offset: uint64, line: string)
    ensures s.log <= AfterPret(e, s, line).log && SentOnly(Added(s, AfterPret(e, s, line)))
    ensures CmdDataConnFrom(e, s, offset, line).1.Ok? ==>
            AfterPret(e, s, line).log == s.log + (if s.usePRET then [Sent("PRET " + line)] else [])
    ensures if s.usePRET && Cmd(e, s, Status.AnyCode, "PRET " + line).1.Err?
            then CmdDataConnFrom(e, s, offset, line).0 == AfterPret(e, s, line)
                 && CmdDataConnFrom(e, s, offset, line).1.Err?
            else CmdDataConnFrom(e, s, offset, line) == Transfer(e, AfterPret(e, s, line), offset, line)
  {
  }

  /** A successful cmdDataConnFrom is PRET (when used) followed by a
      successful transfer. */
  lemma PretThenTransfer(e: Env, s: Session, offset: uint64, line: string)
    requires CmdDataConnFrom(e, s, offset, line).1.Ok?
    ensures CmdDataConnFrom(e, s, offset, line) == Transfer(e, AfterPret(e, s, line), offset, line)
    ensures AfterPret(e, s, line).log == s.log + (if s.usePRET then [Sent("PRET " + line)] else [])
  {
    AfterPretLog(e, s, offset, line);
  }

  /** Sequences of command lines compose. */
  lemma SentOnlyAppend(a: seq<Event>, b: seq<Event>)
    requires SentOnly(a) && SentOnly(b)
    ensures SentOnly(a + b)
  {
  }

  /** A failed transfer either only sent command lines or opened the data
      connection and closed it once, last. */
  lemma TransferFailureShape(e: Env, s: Session, offset: uint64, line: string)
    requires Transfer(e, s, offset, line).1.Err?
    ensures var a := Added(s, Transfer(e, s, offset, line).0);
            SentOnly(a) || OpenedThenClosed(a)
  {
    if OpenDataConn(e, s).1.Ok? {
      TransferFailureCloses(e, s, offset, line);
    } else {
      TransferFailureBeforeOpen(e, s, offset, line);
    }
  }

  /** Command lines before either shape keep it. */
  lemma SentBeforeFailure(a: seq<Event>, b: seq<Event>, c: seq<Event>)
    requires a <= b <= c && SentOnly(b[|a|..])
    requires SentOnly(c[|b|..]) || OpenedThenClosed(c[|b|..])
    ensures SentOnly(c[|a|..]) || OpenedThenClosed(c[|a|..])
  {
    assert c[|a|..] == b[|a|..] + c[|b|..];
    if SentOnly(c[|b|..]) {
      SentOnlyAppend(b[|a|..], c[|b|..]);
    } else {
      OpenedThenClosedAfterSent(b[|a|..], c[|b|..]);
    }
  }

  /** A failed cmdDataConnFrom either never opened the data connection and
      only sent command lines, or opened it and closed it once, last. */
  lemma CmdDataConnFromFailureCloses(e: Env, s: Session, offset: uint64, line: string)
    requires CmdDataConnFrom(e, s, offset, line).1.Err?
    ensures var a := Added(s, CmdDataConnFrom(e, s, offset, line).0);
            SentOnly(a) || OpenedThenClosed(a)
  {
    AfterPretLog(e, s, offset, line);
    var s1 := AfterPret(e, s, line);
    if !(s.usePRET && Cmd(e, s, Status.AnyCode, "PRET " + line).1.Err?) {
      TransferFailureShape(e, s1, offset, line);
      SentBeforeFailure(s.log, s1.log, Transfer(e, s1, offset, line).0.log);
    }
  }

  // ---------------------------------------------------------------------
  // Uploads: the 226 is always read

  /** Once the STOR transfer is under way, StorFrom closes the data
      connection and always reads the 226, after a handshake only when
      nothing was copied and the copy did not fail. */
  lemma StorFromReads226(e: Env, s: Session, path: string, copy: CopyOutcome, offset: uint64)
    requires CmdDataConnFrom(e, s, offset, "STOR " + path).1.Ok?
    ensures var (s1, c) := CmdDataConnFrom(e, s, offset, "STOR " + path);
            var t := StorFrom(e, s, path, copy, offset).0;
            && t.replies == Drop(s1.replies)
            && t.log == s1.log
                        + (if copy.written == 0 && copy.err.None? && c.value.handshake.Handshaking?
                           then [Handshake] else [])
                        + [DataClose]
  {
  }

  /** StorFrom's error: the 226 read's wins over the copy's or the
      handshake's, which wins over the close's. */
  lemma StorFromErrorPrecedence(e: Env, s: Session, path: string, copy: CopyOutcome, offset: uint64)
    requires CmdDataConnFrom(e, s, offset, "STOR " + path).1.Ok?
    ensures var (s1, c) := CmdDataConnFrom(e, s, offset, "STOR " + path);
            var conn := c.value;
            var err := StorFrom(e, s, path, copy, offset).1;
            && (!HasCode(s1.replies, 0, Status.ClosingDataConnection) ==>
                  err == Some(Read(s1, Status.ClosingDataConnection).1.error))
            && (HasCode(s1.replies, 0, Status.ClosingDataConnection) && copy.err.Some? ==>
                  err == Some(Transport(copy.err.value)))
            && (HasCode(s1.replies, 0, Status.ClosingDataConnection) && copy.err.None? && copy.written == 0
                && conn.handshake.Handshaking? && conn.handshake.err.Some? ==>
                  err == Some(Transport(conn.handshake.err.value)))
            && (HasCode(s1.replies, 0, Status.ClosingDataConnection) && copy.err.None?
                && (copy.written != 0 || conn.handshake == NoHandshake || conn.handshake == Handshaking(None)) ==>
                  err == AsTransport(conn.closeError))
  {
  }

  /** StorFrom fails at once, reading nothing more, when the transfer could
      not be started. */
  lemma StorFromNeedsTransfer(e: Env, s: Session, path: string, copy: CopyOutcome, offset: uint64)
    requires CmdDataConnFrom(e, s, offset, "STOR " + path).1.Err?
    ensures StorFrom(e, s, path, copy, offset) ==
            (CmdDataConnFrom(e, s, offset, "STOR " + path).0,
             Some(CmdDataConnFrom(e, s, offset, "STOR " + path).1.error))
  {
  }

  /** Append closes the data connection and always reads the 226; its
      error wins over the copy's, which wins over the close's. */
  lemma AppendReads226(e: Env, s: Session, path: string, copy: CopyOutcome)
    requires CmdDataConnFrom(e, s, 0, "APPE " + path).1.Ok?
    ensures var (s1, c) := CmdDataConnFrom(e, s, 0, "APPE " + path);
            var (t, err) := Append(e, s, path, copy);
            && t.replies == Drop(s1.replies)
            && t.log == s1.log + [DataClose]
            && (!HasCode(s1.replies, 0, Status.ClosingDataConnection) ==>
                  err == Some(Read(s1, Status.ClosingDataConnection).1.error))
            && (HasCode(s1.replies, 0, Status.ClosingDataConnection) && copy.err.Some? ==>
                  err == Some(Transport(copy.err.value)))
            && (HasCode(s1.replies, 0, Status.ClosingDataConnection) && copy.err.None? ==>
                  err == AsTransport(c.value.closeError))
  {
  }

  // ---------------------------------------------------------------------
  // Listings: the scanner's error wins, and the 226 is always read

  /** Once the MLSD or LIST transfer is under way, List parses every line
      with the parser of the format the server supports, closes the data
      connection and reads the 226; the scanner's error wins over that
      read's, which wins over the close error. */
  lemma ListOutcome(e: Env, s: Session, path: string)
    requires CmdDataConnFrom(e, s, 0, ListCommand(s.mlstSupported, path)).1.Ok?
    ensures var (s1, c) := CmdDataConnFrom(e, s, 0, ListCommand(s.mlstSupported, path));
            var conn := c.value;
            var (t, entries, err) := List(e, s, path);
            && t.log == s1.log + [DataClose]
            && t.replies == Drop(s1.replies)
            && entries == ParseLines(e.parseLine, FormatFor(s.mlstSupported), conn.lines)
            && (conn.readError.Some? ==> err == Some(Transport(conn.readError.value)))
            && (conn.readError.None? && !HasCode(s1.replies, 0, Status.ClosingDataConnection) ==>
                  err == Some(Read(s1, Status.ClosingDataConnection).1.error))
            && (conn.readError.None? && HasCode(s1.replies, 0, Status.ClosingDataConnection) ==>
                  err == AsTransport(conn.closeError))
  {
    var (s1, c) := CmdDataConnFrom(e, s, 0, ListCommand(s.mlstSupported, path));
    ResponseCloseFirst(s1, c.value);
  }

  /** List fails at once with no entries, reading nothing more, when the
      transfer could not be started. */
  lemma ListNeedsTransfer(e: Env, s: Session, path: string)
    requires CmdDataConnFrom(e, s, 0, ListCommand(s.mlstSupported, path)).1.Err?
    ensures var (s1, c) := CmdDataConnFrom(e, s, 0, ListCommand(s.mlstSupported, path));
            List(e, s, path) == (s1, [], Some(c.error))
  {
  }

  /** Without PRET, a listing that got under way negotiated the data port,
      opened the data connection, sent MLSD when the server announced MLST
      and LIST otherwise (with the path only when there is one), and closed
      the data connection last. */
  lemma ListLogWithoutPret(e: Env, s: Session, path: string)
    requires !s.usePRET
    requires Transfer(e, s, 0, ListCommand(s.mlstSupported, path)).1.Ok?
    ensures var (n, p) := DataConnPort(e, s);
            && p.Ok?
            && List(e, s, path).0.log ==
               n.log + [DataOpen(p.value.host, p.value.port), Sent(ListCommand(s.mlstSupported, path)), DataClose]
  {
    TransferSuccessOrder(e, s, 0, ListCommand(s.mlstSupported, path));
    ListOutcome(e, s, path);
  }

  /** NameList returns the lines of the NLST transfer as they were read,
      closes the data connection and reads the 226; the scanner's error
      wins over that read's, which wins over the close error. */
  lemma NameListOutcome(e: Env, s: Session, path: string)
    requires CmdDataConnFrom(e, s, 0, NameListCommand(path)).1.Ok?
    ensures var (s1, c) := CmdDataConnFrom(e, s, 0, NameListCommand(path));
            var conn := c.value;
            var (t, lines, err) := NameList(e, s, path);
            && t.log == s1.log + [DataClose]
            && t.replies == Drop(s1.replies)
            && lines == conn.lines
            && (conn.readError.Some? ==> err == Some(Transport(conn.readError.value)))
            && (conn.readError.None? && !HasCode(s1.replies, 0, Status.ClosingDataConnection) ==>
                  err == Some(Read(s1, Status.ClosingDataConnection).1.error))
            && (conn.readError.None? && HasCode(s1.replies, 0, Status.ClosingDataConnection) ==>
                  err == AsTransport(conn.closeError))
  {
    var (s1, c) := CmdDataConnFrom(e, s, 0, NameListCommand(path));
    ResponseCloseFirst(s1, c.value);
  }

  /** NameList fails at once with no lines when the transfer could not be
      started. */
  lemma NameListNeedsTransfer(e: Env, s: Session, path: string)
    requires CmdDataConnFrom(e, s, 0, NameListCommand(path)).1.Err?
    ensures var (s1, c) := CmdDataConnFrom(e, s, 0, NameListCommand(path));
            NameList(e, s, path) == (s1, [], Some(c.error))
  {
  }

  /** Without PRET, a name listing that got under way sent NLST (with the
      path only when there is one) on the opened data connection and closed
      it last. */
  lemma NameListLogWithoutPret(e: Env, s: Session, path: string)
    requires !s.usePRET
    requires Transfer(e, s, 0, NameListCommand(path)).1.Ok?
    ensures var (n, p) := DataConnPort(e, s);
            && p.Ok?
            && NameList(e, s, path).0.log ==
               n.log + [DataOpen(p.value.host, p.value.port), Sent(NameListCommand(path)), DataClose]
  {
    TransferSuccessOrder(e, s, 0, NameListCommand(path));
    NameListOutcome(e, s, path);
  }
}
