/** ServerConn and Response as objects whose fields the operations update,
    over a control connection given as the replies the server will send and
    the data connections the client will be able to dial. Every method is
    proved to compute what module Protocol says of it, so the properties
    proved in ProtocolLemmas hold of the objects. */
module Client {
  import opened FtpTypes
  import opened GoStrings
  import opened Replies
  import Status
  import Protocol

  /** What Walk hands to the directory walker (the traversal itself is not
      part of this model). */
  datatype Walker = Walker(root: string, descend: bool)

  class ServerConn {
    const env: Protocol.Env
    var features: map<string, string>
    var skipEPSV: bool
    var mlstSupported: bool
    var usePRET: bool
    /** The replies the server has yet to send on the control connection. */
    var replies: seq<Reply>
    /** The outcomes of the data connections the client will dial. */
    var dials: seq<Dial>
    /** What the session has done so far. */
    ghost var log: seq<Event>

    /** The session these fields stand for. */
    ghost function State(): Protocol.Session
      reads this
    {
      Protocol.Session(features, skipEPSV, mlstSupported, usePRET, replies, dials, log)
    }

    /** A connection that has not yet read its greeting. */
    constructor Connected(env: Protocol.Env, replies: seq<Reply>, dials: seq<Dial>)
      ensures this.env == env
      ensures State() == Protocol.Fresh(replies, dials)
    {
      this.env := env;
      features := map[];
      skipEPSV := false;
      mlstSupported := false;
      usePRET := false;
      this.replies := replies;
      this.dials := dials;
      log := [];
    }

    // -------------------------------------------------------------------
    // The control connection

    method Read(expected: int) returns (r: Result<Protocol.Answer>)
      modifies this
      ensures (State(), r) == Protocol.Read(old(State()), expected)
    {
      if |replies| == 0 {
        return Err(Transport(Protocol.EndOfReplies));
      }
      var reply := replies[0];
      replies := replies[1..];
      match reply
      case Broken(reason) =>
        r := Err(Transport(reason));
      case Reply(code, msg) =>
        if expected != Status.AnyCode && code != expected {
          r := Err(Error.Protocol(code, msg));
        } else {
          r := Ok(Protocol.Answer(code, msg));
        }
    }

    method Write(line: string) returns (err: Option<Error>)
      modifies this
      ensures (State(), err) == Protocol.Write(env, old(State()), line)
    {
      match env.writeError
      case Some(reason) =>
        err := Some(Transport(reason));
      case None =>
        log := log + [Sent(line)];
        err := None;
    }

    method Cmd(expected: int, line: string) returns (r: Result<Protocol.Answer>)
      modifies this
      ensures (State(), r) == Protocol.Cmd(env, old(State()), expected, line)
    {
      var w := Write(line);
      if w.Some? {
        return Err(w.value);
      }
      r := Read(expected);
    }

    method Exec(expected: int, line: string) returns (err: Option<Error>)
      modifies this
      ensures (State(), err) == Protocol.Exec(env, old(State()), expected, line)
    {
      var r := Cmd(expected, line);
      err := if r.Err? then Some(r.error) else None;
    }

    // -------------------------------------------------------------------
    // Login and capability negotiation

    method Auth(user: string, password: string) returns (code: int, err: Option<Error>)
      modifies this
      ensures var (s, r) := Protocol.Auth(env, old(State()), user, password);
              && State() == s
              && (r.Ok? ==> code == r.value && err.None?)
              && (r.Err? ==> code == 0 && err == Some(r.error))
    {
      var r := Cmd(Status.AnyCode, "USER " + user);
      if r.Err? {
        return 0, Some(r.error);
      }
      code := r.value.code;
      if code == Status.UserOK {
        r := Cmd(Status.AnyCode, "PASS " + password);
        if r.Err? {
          return 0, Some(r.error);
        }
        code := r.value.code;
      }
      err := None;
    }

    method Feat() returns (err: Option<Error>)
      modifies this
      ensures (State(), err) == Protocol.Feat(env, old(State()))
    {
      var r := Cmd(Status.AnyCode, "FEAT");
      if r.Err? {
        return Some(r.error);
      }
      if r.value.code != Status.System {
        return None;
      }
      AddFeatureLines(Split(r.value.msg, '\n'));
      err := None;
    }

    /** The loop of feat over the lines of a 211 reply. */
    method AddFeatureLines(lines: seq<string>)
      modifies this
      ensures State() == old(State()).(features := AddFeatures(old(features), lines))
    {
      var table := features;
      var i := 0;
      while i < |lines|
        invariant 0 <= i <= |lines|
        invariant table == AddFeatures(features, lines[..i])
        modifies {}
      {
        var line := lines[i];
        if HasPrefix(line, " ") {
          // the first word of the trimmed line, and the rest after one space
          var command, commandDesc := FeatureName(line), FeatureParams(line);
          table := table[command := commandDesc];
        }
        AddFeaturesStep(features, lines, i);
        i := i + 1;
      }
      assert lines[..i] == lines;
      features := table;
    }

    method SetUtf8() returns (err: Option<Error>)
      modifies this
      ensures (State(), err) == Protocol.SetUtf8(env, old(State()))
    {
      if "UTF8" !in features {
        return None;
      }
      var r := Cmd(Status.AnyCode, "OPTS UTF8 ON");
      if r.Err? {
        return Some(r.error);
      }
      err := Utf8Verdict(r.value.code, r.value.msg);
    }

    method AfterAuth() returns (err: Option<Error>)
      modifies this
      ensures (State(), err) == Protocol.AfterAuth(env, old(State()))
    {
      err := Feat();
      if err.Some? {
        return;
      }
      ghost var s1 := State();
      if "MLST" in features && !env.opts.disableMLSD {
        mlstSupported := true;
      }
      if "PRET" in features {
        usePRET := true;
      }
      assert State() == Protocol.Capabilities(env, s1);
      err := AfterFeat();
    }

    /** The part of AfterAuth after the flags are set. */
    method AfterFeat() returns (err: Option<Error>)
      modifies this
      ensures (State(), err) == Protocol.AfterFeat(env, old(State()))
    {
      err := Exec(Status.CommandOK, "TYPE I");
      if err.Some? {
        return;
      }
      if !env.opts.disableUTF8 {
        err := SetUtf8();
      }
      if env.opts.tlsConfig {
        ghost var s2 := State();
        err := Exec(Status.CommandOK, "PBSZ 0");
        if err.Some? {
          return;
        }
        err := Exec(Status.CommandOK, "PROT P");
        assert (State(), err) == Protocol.ProtectData(env, s2);
      }
    }

    // -------------------------------------------------------------------
    // Data connections

    method Epsv() returns (r: Result<int>)
      modifies this
      ensures (State(), r) == Protocol.Epsv(env, old(State()))
    {
      var a := Cmd(Status.ExtendedPassiveMode, "EPSV");
      if a.Err? {
        return Err(a.error);
      }
      r := ParseEpsv(a.value.msg);
    }

    method Pasv() returns (r: Result<HostPort>)
      modifies this
      ensures (State(), r) == Protocol.Pasv(env, old(State()))
    {
      var a := Cmd(Status.PassiveMode, "PASV");
      if a.Err? {
        return Err(a.error);
      }
      r := ParsePasv(a.value.msg);
    }

    method DataConnPort() returns (r: Result<HostPort>)
      modifies this
      ensures (State(), r) == Protocol.DataConnPort(env, old(State()))
    {
      if !env.opts.disableEPSV && !skipEPSV {
        var port := Epsv();
        if port.Ok? {
          return Ok(HostPort(env.host, port.value));
        }
        if port.error.SlicePanic? {
          return Err(SlicePanic);
        }
        skipEPSV := true;
      }
      r := Pasv();
    }

    method OpenDataConn() returns (r: Result<DataConn>)
      modifies this
      ensures (State(), r) == Protocol.OpenDataConn(env, old(State()))
    {
      var addr := DataConnPort();
      if addr.Err? {
        return Err(addr.error);
      }
      if |dials| == 0 {
        return Err(Transport(Protocol.NoDataConnection));
      }
      var dial := dials[0];
      dials := dials[1..];
      match dial
      case DialFailed(reason) =>
        r := Err(Transport(reason));
      case Dialed(conn) =>
        log := log + [DataOpen(addr.value.host, addr.value.port)];
        r := Ok(conn);
    }

    /** Closing the data connection: only the event is recorded. */
    method CloseData()
      modifies this
      ensures State() == Protocol.CloseData(old(State()))
    {
      log := log + [DataClose];
    }

    method Rest(offset: uint64) returns (err: Option<Error>)
      modifies this
      ensures (State(), err) == Protocol.Rest(env, old(State()), offset)
    {
      err := None;
      if offset != 0 {
        err := Exec(Status.RequestFilePending, Protocol.RestLine(offset));
      }
    }

    method CmdDataConnFrom(offset: uint64, line: string) returns (r: Result<DataConn>)
      modifies this
      ensures (State(), r) == Protocol.CmdDataConnFrom(env, old(State()), offset, line)
    {
      if usePRET {
        var a := Cmd(Status.AnyCode, "PRET " + line);
        if a.Err? {
          return Err(a.error);
        }
      }
      ghost var s1 := State();
      r := OpenDataConn();
      if r.Err? {
        return;
      }
      ghost var s2 := State();
      var err := Rest(offset);
      if err.None? {
        err := Write(line);
      }
      if err.Some? {
        CloseData();
        return Err(err.value);
      }
      var a := Read(Status.AnyCode);
      if a.Err? {
        CloseData();
        return Err(a.error);
      }
      if a.value.code != Status.AlreadyOpen && a.value.code != Status.AboutToSend {
        CloseData();
        return Err(Error.Protocol(a.value.code, a.value.msg));
      }
      assert (State(), r) == Protocol.SendTransfer(env, s2, r.value, offset, line);
      assert (State(), r) == Protocol.Transfer(env, s1, offset, line);
    }

    method NameList(path: string) returns (entries: seq<string>, err: Option<Error>)
      modifies this
      ensures (State(), entries, err) == Protocol.NameList(env, old(State()), path)
    {
      var c := CmdDataConnFrom(0, NameListCommand(path));
      if c.Err? {
        return [], Some(c.error);
      }
      var resp := new Response(c.value, this);
      var lines := c.value.lines;
      entries := [];
      var i := 0;
      while i < |lines|
        invariant 0 <= i <= |lines|
        invariant entries == lines[..i]
      {
        entries := entries + [lines[i]];
        i := i + 1;
      }
      assert lines[..i] == lines;
      err := Protocol.ScanError(c.value);
      var errClose := resp.Close();
      if err.None? {
        err := errClose;
      }
    }

    method List(path: string) returns (entries: seq<Entry>, err: Option<Error>)
      modifies this
      ensures (State(), entries, err) == Protocol.List(env, old(State()), path)
    {
      var format := FormatFor(mlstSupported);
      var c := CmdDataConnFrom(0, ListCommand(mlstSupported, path));
      if c.Err? {
        return [], Some(c.error);
      }
      var resp := new Response(c.value, this);
      var lines := c.value.lines;
      entries := [];
      var i := 0;
      while i < |lines|
        invariant 0 <= i <= |lines|
        invariant entries == ParseLines(env.parseLine, format, lines[..i])
      {
        var parsed := env.parseLine(format, lines[i]);
        if parsed.Some? {
          entries := entries + [parsed.value];
        }
        assert lines[..i + 1][..i] == lines[..i];
        i := i + 1;
      }
      assert lines[..i] == lines;
      err := Protocol.ScanError(c.value);
      var errClose := resp.Close();
      if err.None? {
        err := errClose;
      }
    }

    method RetrFrom(path: string, offset: uint64) returns (resp: Response?, err: Option<Error>)
      modifies this
      ensures var (s, r) := Protocol.RetrFrom(env, old(State()), path, offset);
              && State() == s
              && (r.Ok? ==> err.None? && resp != null && fresh(resp) && resp.conn == r.value
                            && resp.c == this && !resp.closed)
              && (r.Err? ==> err == Some(r.error) && resp == null)
    {
      var c := CmdDataConnFrom(offset, "RETR " + path);
      if c.Err? {
        return null, Some(c.error);
      }
      resp := new Response(c.value, this);
      err := None;
    }

    method StorFrom(path: string, copy: CopyOutcome, offset: uint64) returns (err: Option<Error>)
      modifies this
      ensures (State(), err) == Protocol.StorFrom(env, old(State()), path, copy, offset)
    {
      var c := CmdDataConnFrom(offset, "STOR " + path);
      if c.Err? {
        return Some(c.error);
      }
      var conn := c.value;
      err := AsTransport(copy.err);
      if copy.written == 0 && copy.err.None? && conn.handshake.Handshaking? {
        log := log + [Handshake];
        err := AsTransport(conn.handshake.err);
      }
      var closeErr := AsTransport(conn.closeError);
      CloseData();
      if err.None? {
        err := closeErr;
      }
      var r := Read(Status.ClosingDataConnection);
      if r.Err? {
        err := Some(r.error);
      }
    }

    method Append(path: string, copy: CopyOutcome) returns (err: Option<Error>)
      modifies this
      ensures (State(), err) == Protocol.Append(env, old(State()), path, copy)
    {
      var c := CmdDataConnFrom(0, "APPE " + path);
      if c.Err? {
        return Some(c.error);
      }
      err := AsTransport(copy.err);
      var errClose := AsTransport(c.value.closeError);
      CloseData();
      var r := Read(Status.ClosingDataConnection);
      if r.Err? {
        err := Some(r.error);
      }
      if err.None? {
        err := errClose;
      }
    }

    // -------------------------------------------------------------------
    // Directory commands

    method ChangeDir(path: string) returns (err: Option<Error>)
      modifies this
      ensures (State(), err) == Protocol.ChangeDir(env, old(State()), path)
    {
      err := Exec(Status.RequestedFileActionOK, "CWD " + path);
    }

    method ChangeDirToParent() returns (err: Option<Error>)
      modifies this
      ensures (State(), err) == Protocol.ChangeDirToParent(env, old(State()))
    {
      err := Exec(Status.RequestedFileActionOK, "CDUP");
    }

    method CurrentDir() returns (r: Result<string>)
      modifies this
      ensures (State(), r) == Protocol.CurrentDir(env, old(State()))
    {
      var a := Cmd(Status.PathCreated, "PWD");
      if a.Err? {
        return Err(a.error);
      }
      r := ParsePwd(a.value.msg);
    }

    method Delete(path: string) returns (err: Option<Error>)
      modifies this
      ensures (State(), err) == Protocol.Delete(env, old(State()), path)
    {
      err := Exec(Status.RequestedFileActionOK, "DELE " + path);
    }

    method RemoveDir(path: string) returns (err: Option<Error>)
      modifies this
      ensures (State(), err) == Protocol.RemoveDir(env, old(State()), path)
    {
      err := Exec(Status.RequestedFileActionOK, "RMD " + path);
    }

    method Rename(from: string, to: string) returns (err: Option<Error>)
      modifies this
      ensures (State(), err) == Protocol.Rename(env, old(State()), from, to)
    {
      err := Exec(Status.RequestFilePending, "RNFR " + from);
      if err.Some? {
        return;
      }
      err := Exec(Status.RequestedFileActionOK, "RNTO " + to);
    }

    method RemoveDirRecur(path: string) returns (err: Option<Error>)
      modifies this
      ensures (State(), err) == Protocol.RemoveDirRecur(env, old(State()), path)
      decreases |replies|, 1
    {
      err := ChangeDir(path);
      if err.Some? {
        return;
      }
      var currentDir := CurrentDir();
      if currentDir.Err? {
        return Some(currentDir.error);
      }
      var dir := currentDir.value;
      var entries;
      entries, err := List(dir);
      if err.Some? {
        return;
      }
      err := RemoveEntries(dir, entries);
      if err.Some? {
        return;
      }
      ghost var s3 := State();
      err := ChangeDirToParent();
      if err.Some? {
        return;
      }
      err := RemoveDir(dir);
      assert (State(), err) == Protocol.LeaveAndRemove(env, s3, dir);
    }

    /** The loop of RemoveDirRecur over the entries of directory `dir`. */
    method RemoveEntries(dir: string, entries: seq<Entry>) returns (err: Option<Error>)
      modifies this
      ensures (State(), err) == Protocol.RemoveEntries(env, old(State()), dir, entries)
      decreases |replies|, 2
    {
      var i := 0;
      while i < |entries|
        invariant 0 <= i <= |entries|
        invariant |replies| <= |old(replies)|
        invariant Protocol.RemoveEntries(env, old(State()), dir, entries)
               == Protocol.RemoveEntries(env, State(), dir, entries[i..])
      {
        var entry := entries[i];
        if entry.name != ".." && entry.name != "." {
          if entry.kind == Folder {
            err := RemoveDirRecur(dir + "/" + entry.name);
          } else {
            err := Delete(entry.name);
          }
          if err.Some? {
            return;
          }
        }
        assert entries[i..][1..] == entries[i + 1..];
        i := i + 1;
      }
      err := None;
    }

    /** Walk: a walker from `root`, with a trailing "/" added when missing. */
    method Walk(root: string) returns (w: Walker)
      ensures HasSuffix(w.root, "/") && w.descend
      ensures HasSuffix(root, "/") ==> w.root == root
      ensures !HasSuffix(root, "/") ==> w.root == root + "/"
    {
      w := Walker(WalkRoot(root), true);
    }

    // -------------------------------------------------------------------
    // Opening and closing the session

    method Quit() returns (err: Option<Error>)
      modifies this
      ensures (State(), err) == Protocol.Quit(env, old(State()))
    {
      var errQuit := Write("QUIT");
      log := log + [ControlClose];
      var closeErr := env.closeError;
      if errQuit.Some? {
        if closeErr.Some? {
          return Some(Quitting(errQuit.value.reason, closeErr.value));
        }
        return errQuit;
      }
      err := AsTransport(closeErr);
    }

    /** Dial once the control connection is (or could not be) established. */
    static method Dial(env: Protocol.Env, connectError: Option<string>, replies: seq<Reply>, dials: seq<Dial>)
      returns (c: ServerConn, err: Option<Error>)
      ensures fresh(c) && c.env == env
      ensures (c.State(), err) == Protocol.Dial(env, connectError, replies, dials)
    {
      c := new ServerConn.Connected(env, replies, dials);
      if connectError.Some? {
        return c, Some(Transport(connectError.value));
      }
      var greeting := c.Read(Status.Ready);
      if greeting.Err? {
        var _ := c.Quit();
        return c, Some(greeting.error);
      }
      err := None;
      if env.opts.explicitTLS {
        err := c.Exec(Status.AuthOK, "AUTH TLS");
        if err.Some? {
          var _ := c.Quit();
          return;
        }
        c.log := c.log + [TlsUpgrade];
      }
    }
  }

  /** A data connection handed to the caller, and the session that must
      read the 226 that ends it. */
  class Response {
    const conn: DataConn
    const c: ServerConn
    var closed: bool

    constructor (conn: DataConn, c: ServerConn)
      ensures this.conn == conn && this.c == c && !closed
    {
      this.conn := conn;
      this.c := c;
      closed := false;
    }

    /** Close: closes the data connection and reads the 226 the first time
      only; `closed` is set even when that fails. */
    method Close() returns (err: Option<Error>)
      modifies this, c
      ensures closed
      ensures (c.State(), closed, err) == Protocol.ResponseClose(old(c.State()), conn, old(closed))
    {
      if closed {
        return None;
      }
      c.CloseData();
      var r := c.Read(Status.ClosingDataConnection);
      err := AsTransport(conn.closeError);
      if r.Err? {
        err := Some(r.error);
      }
      closed := true;
    }
  }
}
