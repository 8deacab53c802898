/** The backend's command handlers: a session table holding at most one POP3
    connection, the commands that act on it, and the echo commands that return
    the line a command would send. What the server answers (or the I/O error met
    on the way) is a parameter of each command; the answer is then read with the
    response parser. */
module Backend {
  import opened Wrappers
  import opened Bytes
  import opened Pop3Parser
  import opened Pop3Client

  /** The error a command returns (serialised as `ErrorMsg { msg }`). `NoConnection`
      reads "no pop3 server connection"; the others carry the `Pop3` failure. */
  datatype BackendError = NoConnection | Failed(failure: Pop3Failure)

  /** The outcome of one exchange with the server: the I/O error, or the reply
      bytes read with `parse`. */
  function Answer<T>(reply: Result<Bytes, Bytes>, parse: Bytes -> Result<T, Pop3Error>): (r: Result<T, BackendError>)
    ensures reply.Err? ==> r == Err(Failed(Io(reply.error)))
    ensures reply.Ok? ==> (r.Ok? <==> parse(reply.value).Ok?)
  {
    match reply
    case Err(e) => Err(Failed(Io(e)))
    case Ok(buf) =>
      match parse(buf)
      case Ok(v) => Ok(v)
      case Err(e) => Err(Failed(Reply(e)))
  }

  /** How `retr` reads the server's reply: the unstuffed message and the status text. */
  function RetrReply(buf: Bytes): Result<Mail, Pop3Error> {
    Settle(RetrResponse(buf))
  }

  /** What `list` returns for the server's reply. */
  function ListAnswer(id: Option<nat>, reply: Result<Bytes, Bytes>): Result<ScanList, BackendError> {
    Answer(reply, buf => ListReply(id, buf))
  }

  /** What `retr` returns for the server's reply. */
  function RetrAnswer(reply: Result<Bytes, Bytes>): Result<Mail, BackendError> {
    Answer(reply, RetrReply)
  }

  // ---------------------------------------------------------------------------
  // The session table as a state machine

  /** The fields of the backend's `State`. */
  datatype State = State(connection: Option<Endpoint>, addr: Bytes, name: Bytes, pass: Bytes)

  /** One command as the front end invokes it, with what the network gave. */
  datatype Request =
    | Connect(addr: Bytes, withTls: bool, dial: Result<Bytes, Bytes>)
    | User(name: Bytes, reply: Result<Bytes, Bytes>)
    | Pass(secret: Bytes, reply: Result<Bytes, Bytes>)
    | Stat(reply: Result<Bytes, Bytes>)
    | List(id: Option<nat>, reply: Result<Bytes, Bytes>)
    | Retr(msg: nat, reply: Result<Bytes, Bytes>)
    | Quit(reply: Result<Bytes, Bytes>)

  /** The state after a command. */
  function Next(s: State, q: Request): (t: State)
    ensures t.name == s.name && t.pass == s.pass
    ensures !q.Connect? ==> t.addr == s.addr
    ensures q.Connect? ==> (t.connection.Some? <==> Pop3New(q.addr, q.withTls, q.dial).Ok?)
    ensures q.Connect? && Pop3New(q.addr, q.withTls, q.dial).Ok? ==> t.connection == Some(Pop3New(q.addr, q.withTls, q.dial).value.0)
    ensures q.Connect? ==> t.addr == if t.connection.Some? then q.addr else s.addr
    ensures q.Quit? ==> t.connection.None?
    ensures !q.Connect? && !q.Quit? ==> t == s
  {
    match q
    case Connect(addr, withTls, dial) =>
      (match Pop3New(addr, withTls, dial)
       case Ok((ep, _)) => s.(connection := Some(ep), addr := addr)
       case Err(_) => s.(connection := None))
    case Quit(_) => s.(connection := None)
    case _ => s
  }

  /** The command line a request sends; on `connect` it is the QUIT sent to the
      connection being replaced. */
  function Sent(q: Request): Command {
    match q
    case Connect(_, _, _) => QUIT
    case User(name, _) => USER(name)
    case Pass(secret, _) => PASS(secret)
    case Stat(_) => STAT
    case List(id, _) => LIST(id)
    case Retr(msg, _) => RETR(msg)
    case Quit(_) => QUIT
  }

  /** The lines a command writes, each with the connection it goes to: nothing
      without a connection, else one line to the current connection. */
  function Wire(s: State, q: Request): (w: seq<(Endpoint, Bytes)>)
    ensures s.connection.None? ==> w == []
    ensures s.connection.Some? ==> |w| == 1 && w[0].0 == s.connection.value
  {
    if s.connection.None? then [] else [(s.connection.value, Line(Sent(q)))]
  }

  function Run(s: State, qs: seq<Request>): State
    decreases |qs|
  {
    if qs == [] then s else Run(Next(s, qs[0]), qs[1..])
  }

  /** No command ever writes the `name` and `pass` fields. */
  lemma {:induction false} CredentialsNeverWritten(s: State, qs: seq<Request>)
    ensures Run(s, qs).name == s.name && Run(s, qs).pass == s.pass
    decreases |qs|
  {
    if qs != [] {
      CredentialsNeverWritten(Next(s, qs[0]), qs[1..]);
    }
  }

  /** The address of the most recent successful connect, or `addr` if there was none. */
  function LastConnected(addr: Bytes, qs: seq<Request>): Bytes
    decreases |qs|
  {
    if qs == [] then addr
    else
      var q := qs[|qs| - 1];
      if q.Connect? && Pop3New(q.addr, q.withTls, q.dial).Ok? then q.addr
      else LastConnected(addr, qs[..|qs| - 1])
  }

  lemma {:induction false} RunSnoc(s: State, qs: seq<Request>, q: Request)
    ensures Run(s, qs + [q]) == Next(Run(s, qs), q)
    decreases |qs|
  {
    if qs == [] {
      assert qs + [q] == [q];
    } else {
      assert (qs + [q])[1..] == qs[1..] + [q];
      RunSnoc(Next(s, qs[0]), qs[1..], q);
    }
  }

  /** Only a successful connect writes `addr`: after any run it is the address
      of the last connect that succeeded. */
  lemma {:induction false} AddrIsLastConnected(s: State, qs: seq<Request>)
    ensures Run(s, qs).addr == LastConnected(s.addr, qs)
    decreases |qs|
  {
    if qs != [] {
      var init, q := qs[..|qs| - 1], qs[|qs| - 1];
      assert qs == init + [q];
      RunSnoc(s, init, q);
      AddrIsLastConnected(s, init);
    }
  }

  /** Without a connection every command but `connect` leaves the state as it is. */
  lemma {:induction false} DisconnectedRunIsInert(s: State, qs: seq<Request>)
    requires s.connection.None?
    requires forall i :: 0 <= i < |qs| ==> !qs[i].Connect?
    ensures Run(s, qs) == s
    decreases |qs|
  {
    if qs != [] {
      assert !qs[0].Connect?;
      DisconnectedRunIsInert(Next(s, qs[0]), qs[1..]);
    }
  }

  // ---------------------------------------------------------------------------
  // The commands

  /** The backend's managed `State`, guarded by a mutex in the source. `wire`
      records every command line written, with the connection it went to. */
  class Session {
    var connection: Option<Endpoint>
    var addr: Bytes
    var name: Bytes
    var pass: Bytes
    ghost var wire: seq<(Endpoint, Bytes)>

    function Snapshot(): State
      reads this
    {
      State(connection, addr, name, pass)
    }

    /** `State::default()`. */
    constructor ()
      ensures Snapshot() == State(None, [], [], []) && wire == []
    {
      connection, addr, name, pass := None, [], [], [];
      wire := [];
    }

    /** `connect`: take any old connection and send it QUIT (its answer is
        ignored), then open the new one; only on success is it stored and `addr`
        set. */
    method Connect(newAddr: Bytes, withTls: bool, dial: Result<Bytes, Bytes>) returns (r: Result<Bytes, BackendError>)
      modifies this
      ensures Snapshot() == Next(old(Snapshot()), Request.Connect(newAddr, withTls, dial))
      ensures wire == old(wire) + Wire(old(Snapshot()), Request.Connect(newAddr, withTls, dial))
      ensures r == match Pop3New(newAddr, withTls, dial)
        case Ok((_, greeting)) => Ok(greeting)
        case Err(e) => Err(Failed(e))
    {
      var previous := connection;
      connection := None;
      if previous.Some? {
        wire := wire + [(previous.value, Line(QUIT))];
      }
      var dialled := Pop3New(newAddr, withTls, dial);
      if dialled.Err? {
        return Err(Failed(dialled.error));
      }
      connection := Some(dialled.value.0);
      addr := newAddr;
      r := Ok(dialled.value.1);
    }

    /** `user`. */
    method User(userName: Bytes, reply: Result<Bytes, Bytes>) returns (r: Result<Bytes, BackendError>)
      modifies this
      ensures Snapshot() == old(Snapshot())
      ensures wire == old(wire) + Wire(old(Snapshot()), Request.User(userName, reply))
      ensures r == if old(connection).None? then Err(NoConnection) else Answer(reply, ParseStatusLine)
    {
      if connection.None? {
        return Err(NoConnection);
      }
      wire := wire + Wire(Snapshot(), Request.User(userName, reply));
      r := Answer(reply, ParseStatusLine);
    }

    /** `pass`. */
    method Pass(secret: Bytes, reply: Result<Bytes, Bytes>) returns (r: Result<Bytes, BackendError>)
      modifies this
      ensures Snapshot() == old(Snapshot())
      ensures wire == old(wire) + Wire(old(Snapshot()), Request.Pass(secret, reply))
      ensures r == if old(connection).None? then Err(NoConnection) else Answer(reply, ParseStatusLine)
    {
      if connection.None? {
        return Err(NoConnection);
      }
      wire := wire + Wire(Snapshot(), Request.Pass(secret, reply));
      r := Answer(reply, ParseStatusLine);
    }

    /** `stat`. */
    method Stat(reply: Result<Bytes, Bytes>) returns (r: Result<DropListing, BackendError>)
      modifies this
      ensures Snapshot() == old(Snapshot())
      ensures wire == old(wire) + Wire(old(Snapshot()), Request.Stat(reply))
      ensures r == if old(connection).None? then Err(NoConnection) else Answer(reply, ParseStat)
    {
      if connection.None? {
        return Err(NoConnection);
      }
      wire := wire + Wire(Snapshot(), Request.Stat(reply));
      r := Answer(reply, ParseStat);
    }

    /** `list`: one listing when an id is given, all of them otherwise. */
    method List(id: Option<nat>, reply: Result<Bytes, Bytes>) returns (r: Result<ScanList, BackendError>)
      modifies this
      ensures Snapshot() == old(Snapshot())
      ensures wire == old(wire) + Wire(old(Snapshot()), Request.List(id, reply))
      ensures r == if old(connection).None? then Err(NoConnection) else ListAnswer(id, reply)
    {
      if connection.None? {
        return Err(NoConnection);
      }
      wire := wire + Wire(Snapshot(), Request.List(id, reply));
      r := ReadListAnswer(id, reply);
    }

    /** `retr`: the unstuffed message and the status text. */
    method Retr(msg: nat, reply: Result<Bytes, Bytes>) returns (r: Result<Mail, BackendError>)
      modifies this
      ensures Snapshot() == old(Snapshot())
      ensures wire == old(wire) + Wire(old(Snapshot()), Request.Retr(msg, reply))
      ensures r == if old(connection).None? then Err(NoConnection) else RetrAnswer(reply)
    {
      if connection.None? {
        return Err(NoConnection);
      }
      wire := wire + Wire(Snapshot(), Request.Retr(msg, reply));
      r := ReadRetrAnswer(reply);
    }

    /** `quit`: the connection is taken out of the table before QUIT is sent, so it
        is gone whatever the server answers. */
    method Quit(reply: Result<Bytes, Bytes>) returns (r: Result<Bytes, BackendError>)
      modifies this
      ensures Snapshot() == Next(old(Snapshot()), Request.Quit(reply))
      ensures wire == old(wire) + Wire(old(Snapshot()), Request.Quit(reply))
      ensures r == if old(connection).None? then Err(NoConnection) else Answer(reply, ParseStatusLine)
    {
      var taken := connection;
      connection := None;
      if taken.None? {
        return Err(NoConnection);
      }
      wire := wire + [(taken.value, Line(QUIT))];
      r := Answer(reply, ParseStatusLine);
    }
  }

  /** The reply to LIST as `list` hands it on, read with `parse_single_list` or
      `parse_list`. */
  method ReadListAnswer(id: Option<nat>, reply: Result<Bytes, Bytes>) returns (r: Result<ScanList, BackendError>)
    ensures r == ListAnswer(id, reply)
  {
    if reply.Err? {
      return Err(Failed(Io(reply.error)));
    }
    var listed := ReadListReply(id, reply.value);
    r := if listed.Ok? then Ok(listed.value) else Err(Failed(Reply(listed.error)));
  }

  /** The reply to RETR as `retr` hands it on, read with `parse_retr_result`. */
  method ReadRetrAnswer(reply: Result<Bytes, Bytes>) returns (r: Result<Mail, BackendError>)
    ensures r == RetrAnswer(reply)
  {
    if reply.Err? {
      return Err(Failed(Io(reply.error)));
    }
    var mail := ParseRetrResult(reply.value);
    r := if mail.Ok? then Ok(mail.value) else Err(Failed(Reply(mail.error)));
  }

  // ---------------------------------------------------------------------------
  // The echo commands (`msg_command`)

  /** `user_msg`: the USER line a fresh `Msg` holds. */
  method UserMsg(name: Bytes) returns (r: Result<Bytes, BackendError>)
    ensures r == Ok(Line(USER(name)))
  {
    var msg := new Msg();
    var _ := msg.User(name);
    r := Ok(msg.buf);
  }

  method PassMsg(secret: Bytes) returns (r: Result<Bytes, BackendError>)
    ensures r == Ok(Line(PASS(secret)))
  {
    var msg := new Msg();
    var _ := msg.Pass(secret);
    r := Ok(msg.buf);
  }

  method StatMsg() returns (r: Result<Bytes, BackendError>)
    ensures r == Ok(Line(STAT))
  {
    var msg := new Msg();
    var _ := msg.Stat();
    r := Ok(msg.buf);
  }

  method ListMsg(id: Option<nat>) returns (r: Result<Bytes, BackendError>)
    ensures r == Ok(Line(LIST(id)))
  {
    var msg := new Msg();
    var _ := msg.List(id);
    r := Ok(msg.buf);
  }

  method RetrMsg(id: nat) returns (r: Result<Bytes, BackendError>)
    ensures r == Ok(Line(RETR(id)))
  {
    var msg := new Msg();
    var _ := msg.Retr(id);
    r := Ok(msg.buf);
  }

  method QuitMsg() returns (r: Result<Bytes, BackendError>)
    ensures r == Ok(Line(QUIT))
  {
    var msg := new Msg();
    var _ := msg.Quit();
    r := Ok(msg.buf);
  }
}
