/** The client side of a POP3 session without its socket: the `Msg` command
    buffer, the host:port rule of `Pop3::new`, and how each command's reply is
    read back with the response parser. */
module Pop3Client {
  import opened Wrappers
  import opened Bytes
  import opened Pop3Parser
  import opened Pop3ParserProofs

  // ---------------------------------------------------------------------------
  // Command lines (RFC 1939 sections 5, 6 and 7)

  /** The commands the client writes. Names and secrets are sent as they are. */
  datatype Command =
    | USER(name: Bytes)
    | PASS(secret: Bytes)
    | STAT
    | LIST(id: Option<nat>)
    | RETR(msg: nat)
    | QUIT

  /** The command keywords "USER", "PASS", "STAT", "LIST", "RETR" and "QUIT" in ASCII. */
  const UserKw: Bytes := [85, 83, 69, 82]
  const PassKw: Bytes := [80, 65, 83, 83]
  const StatKw: Bytes := [83, 84, 65, 84]
  const ListKw: Bytes := [76, 73, 83, 84]
  const RetrKw: Bytes := [82, 69, 84, 82]
  const QuitKw: Bytes := [81, 85, 73, 84]

  /** The line `Msg` writes for a command, CRLF included. */
  function Line(c: Command): Bytes {
    match c
    case USER(name) => UserKw + [SP] + name + CRLF
    case PASS(secret) => PassKw + [SP] + secret + CRLF
    case STAT => StatKw + CRLF
    case LIST(None) => ListKw + CRLF
    case LIST(Some(id)) => ListKw + [SP] + Decimal(id) + CRLF
    case RETR(msg) => RetrKw + [SP] + Decimal(msg) + CRLF
    case QUIT => QuitKw + CRLF
  }

  /** The command's argument holds no line break. */
  predicate SingleLine(c: Command) {
    match c
    case USER(name) => NoCrlf(name) && (name == [] || name[|name| - 1] != CR)
    case PASS(secret) => NoCrlf(secret) && (secret == [] || secret[|secret| - 1] != CR)
    case _ => true
  }

  /** The buffer of a `Pop3` connection: every builder clears it and writes
      exactly one command line. */
  class Msg {
    var buf: Bytes

    /** `Msg::with_maximum_len` / `Msg::default`: an empty buffer (the capacity
        of 27 bytes is an allocation hint only). */
    constructor ()
      ensures buf == []
    {
      buf := [];
    }

    method User(name: Bytes) returns (r: Bytes)
      modifies this
      ensures buf == Line(USER(name)) && r == buf
    {
      buf := [];
      buf := buf + UserKw + [SP] + name + CRLF;
      r := buf;
    }

    method Pass(secret: Bytes) returns (r: Bytes)
      modifies this
      ensures buf == Line(PASS(secret)) && r == buf
    {
      buf := [];
      buf := buf + PassKw + [SP] + secret + CRLF;
      r := buf;
    }

    method Stat() returns (r: Bytes)
      modifies this
      ensures buf == Line(STAT) && r == buf
    {
      buf := [];
      buf := buf + StatKw + CRLF;
      r := buf;
    }

    method List(id: Option<nat>) returns (r: Bytes)
      modifies this
      ensures buf == Line(LIST(id)) && r == buf
    {
      buf := [];
      if id.Some? {
        buf := buf + ListKw + [SP] + Decimal(id.value) + CRLF;
      } else {
        buf := buf + ListKw + CRLF;
      }
      r := buf;
    }

    method Retr(msg: nat) returns (r: Bytes)
      modifies this
      ensures buf == Line(RETR(msg)) && r == buf
    {
      buf := [];
      buf := buf + RetrKw + [SP] + Decimal(msg) + CRLF;
      r := buf;
    }

    method Quit() returns (r: Bytes)
      modifies this
      ensures buf == Line(QUIT) && r == buf
    {
      buf := [];
      buf := buf + QuitKw + CRLF;
      r := buf;
    }
  }

  /** How a server reads a command line back: the four-letter keyword, then
      nothing or one space and the argument, then CRLF. */
  function ReadCommand(line: Bytes): Option<Command> {
    if |line| < 6 || line[|line| - 2..] != CRLF then None
    else
      var kw, body := line[..4], line[4..|line| - 2];
      if body == [] then
        if kw == StatKw then Some(STAT)
        else if kw == ListKw then Some(LIST(None))
        else if kw == QuitKw then Some(QUIT)
        else None
      else if body[0] != SP then None
      else
        var arg := body[1..];
        if kw == UserKw then Some(USER(arg))
        else if kw == PassKw then Some(PASS(arg))
        else if arg == [] || !AllDigits(arg) then None
        else if kw == ListKw then Some(LIST(Some(DecimalValue(arg))))
        else if kw == RetrKw then Some(RETR(DecimalValue(arg)))
        else None
  }

  /** The line of a command: its keyword, then its argument after one space, then CRLF. */
  lemma LineParts(c: Command)
    ensures |Line(c)| >= 6
    ensures Line(c)[..4] == Keyword(c)
    ensures Line(c)[|Line(c)| - 2..] == CRLF
    ensures Line(c)[4..|Line(c)| - 2] == Tail(c)
  {
    var s := Line(c);
    assert s == Keyword(c) + Tail(c) + CRLF;
  }

  /** Every command line reads back as the command. */
  lemma ReadCommandRoundTrip(c: Command)
    ensures ReadCommand(Line(c)) == Some(c)
  {
    LineParts(c);
    match c
    case USER(_) => ReadTextArgument(c);
    case PASS(_) => ReadTextArgument(c);
    case LIST(Some(_)) => ReadNumberArgument(c);
    case RETR(_) => ReadNumberArgument(c);
    case _ =>
  }

  lemma ReadTextArgument(c: Command)
    requires c.USER? || c.PASS?
    ensures ReadCommand(Line(c)) == Some(c)
  {
    LineParts(c);
    assert Tail(c)[1..] == Argument(c);
  }

  lemma ReadNumberArgument(c: Command)
    requires c.RETR? || (c.LIST? && c.id.Some?)
    ensures ReadCommand(Line(c)) == Some(c)
  {
    LineParts(c);
    var n := if c.RETR? then c.msg else c.id.value;
    assert Tail(c)[1..] == Decimal(n);
    DecimalRoundTrip(n);
  }

  /** Different commands are written as different lines. */
  lemma LineInjective(a: Command, b: Command)
    requires Line(a) == Line(b)
    ensures a == b
  {
    ReadCommandRoundTrip(a);
    ReadCommandRoundTrip(b);
  }

  /** A command whose argument holds no line break is exactly one line: its only
      CRLF is the one at the end. */
  lemma LineIsOneLine(c: Command)
    requires SingleLine(c)
    ensures FindCrlf(Line(c)) == Some(|Line(c)| - 2)
  {
    var kw, tail := Keyword(c), Tail(c);
    assert Line(c) == kw + tail + CRLF;
    assert NoCrlf(kw);
    if tail != [] {
      TailHasNoCrlf(c);
      NoCrlfConcat(kw, tail);
    } else {
      assert kw + tail == kw;
    }
    FindCrlfAfter(kw + tail, []);
    assert kw + tail + CRLF + [] == Line(c);
  }

  /** The keyword a command line starts with. */
  function Keyword(c: Command): Bytes {
    match c
    case USER(_) => UserKw
    case PASS(_) => PassKw
    case STAT => StatKw
    case LIST(_) => ListKw
    case RETR(_) => RetrKw
    case QUIT => QuitKw
  }

  /** A command's argument as written on the line. */
  function Argument(c: Command): Bytes {
    match c
    case USER(name) => name
    case PASS(secret) => secret
    case LIST(Some(id)) => Decimal(id)
    case RETR(msg) => Decimal(msg)
    case _ => []
  }

  /** What follows the keyword: nothing, or one space and the argument. */
  function Tail(c: Command): Bytes {
    if c.STAT? || c.QUIT? || c == LIST(None) then [] else [SP] + Argument(c)
  }

  lemma TailHasNoCrlf(c: Command)
    requires SingleLine(c) && Tail(c) != []
    ensures NoCrlf(Tail(c)) && Tail(c)[0] != LF
  {
    var arg := Argument(c);
    if c.LIST? || c.RETR? {
      DigitsHaveNoCrlf(arg);
    }
    if arg != [] {
      NoCrlfConcat([SP], arg);
    } else {
      assert Tail(c) == [SP];
    }
  }

  /** Nothing is escaped: a user name holding a CRLF ends the USER line early,
      and what follows it reaches the server as a line of its own. */
  lemma NameCanInjectLines(name: Bytes, i: nat)
    requires CrlfAt(name, i)
    ensures FindCrlf(Line(USER(name))).Some?
    ensures FindCrlf(Line(USER(name))).value < |Line(USER(name))| - 2
  {
    var s := Line(USER(name));
    assert s == UserKw + [SP] + name + CRLF;
    assert CrlfAt(s, 5 + i);
  }

  // ---------------------------------------------------------------------------
  // The server address (`Pop3::new`)

  /** The kinds of Rust's `ParseIntError` that `str::parse::<u16>` can report. */
  datatype IntErrorKind = Empty | InvalidDigit | PosOverflow

  const U16Limit: nat := 65536

  /** `str::parse::<u16>`: an optional "+", then decimal digits read left to right;
      the first non-digit or the first digit that overflows decides the error. */
  function ParseU16(s: Bytes): (r: Result<nat, IntErrorKind>)
    ensures r.Ok? ==> r.value < U16Limit
    ensures r == Err(Empty) <==> s == []
  {
    if s == [] then Err(Empty)
    else if s[0] == PLUS && |s| == 1 then Err(InvalidDigit)
    else if s[0] == PLUS then U16Digits(s[1..], 0)
    else U16Digits(s, 0)
  }

  function U16Digits(ds: Bytes, acc: nat): (r: Result<nat, IntErrorKind>)
    requires acc < U16Limit
    ensures r.Ok? ==> r.value < U16Limit && AllDigits(ds)
    ensures r != Err(Empty)
  {
    if ds == [] then Ok(acc)
    else if !IsDigit(ds[0]) then Err(InvalidDigit)
    else
      var v := acc * 10 + (ds[0] as int - 48);
      if v >= U16Limit then Err(PosOverflow) else U16Digits(ds[1..], v)
  }

  /** Reading the digits of `a + b` is reading `a`, then going on with `b`. */
  lemma {:induction false} U16DigitsSplit(a: Bytes, b: Bytes, acc: nat)
    requires acc < U16Limit
    ensures U16Digits(a + b, acc) == match U16Digits(a, acc)
      case Ok(v) => U16Digits(b, v)
      case Err(e) => Err(e)
  {
    if a == [] {
      assert a + b == b;
    } else {
      assert (a + b)[0] == a[0] && (a + b)[1..] == a[1..] + b;
      if IsDigit(a[0]) && acc * 10 + (a[0] as int - 48) < U16Limit {
        U16DigitsSplit(a[1..], b, acc * 10 + (a[0] as int - 48));
      }
    }
  }

  /** A formatted port number reads back as itself exactly when it fits in 16 bits. */
  lemma {:induction false} U16DigitsOfDecimal(p: nat)
    ensures U16Digits(Decimal(p), 0) == if p < U16Limit then Ok(p) else Err(PosOverflow)
  {
    if p >= 10 {
      var d := [(48 + p % 10) as byte];
      assert Decimal(p) == Decimal(p / 10) + d;
      U16DigitsOfDecimal(p / 10);
      U16DigitsSplit(Decimal(p / 10), d, 0);
    }
  }

  lemma ParseU16RoundTrip(p: nat)
    ensures ParseU16(Decimal(p)) == if p < U16Limit then Ok(p) else Err(PosOverflow)
    ensures ParseU16([PLUS] + Decimal(p)) == if p < U16Limit then Ok(p) else Err(PosOverflow)
  {
    U16DigitsOfDecimal(p);
    assert ([PLUS] + Decimal(p))[1..] == Decimal(p);
  }

  /** A port text holding anything but digits after an optional "+" is not a port;
      the error is an invalid digit unless the digits before it already overflow. */
  lemma ParseU16RejectsNonDigits(s: Bytes)
    requires s != [] && !AllDigits(s)
    requires s[0] != PLUS || |s| == 1 || !AllDigits(s[1..])
    ensures ParseU16(s).Err?
  {
    if s[0] == PLUS && |s| > 1 {
    }
  }

  /** The position of the last ":" in `s` (Rust's `rsplit_once(":")`). */
  function LastColon(s: Bytes): (r: Option<nat>)
    ensures r.Some? ==> r.value < |s| && s[r.value] == COLON && COLON !in s[r.value + 1..]
    ensures r.None? ==> COLON !in s
  {
    if s == [] then None
    else if s[|s| - 1] == COLON then Some(|s| - 1)
    else
      var r := LastColon(s[..|s| - 1]);
      assert s == s[..|s| - 1] + [s[|s| - 1]];
      r
  }

  /** The port a connection uses when the address names none (RFC 1939 section 4,
      and 995 for POP3 over TLS). */
  function DefaultPort(withTls: bool): nat {
    if withTls then 995 else 110
  }

  /** The split of `Pop3::new`: the domain is the text before the last ":", the
      port the text after it read as a u16; without ":" the whole address is the
      domain and the port is the default one. */
  function SplitAddr(addr: Bytes, withTls: bool): (Bytes, Result<nat, IntErrorKind>) {
    match LastColon(addr)
    case None => (addr, Ok(DefaultPort(withTls)))
    case Some(i) => (addr[..i], ParseU16(addr[i + 1..]))
  }

  lemma SplitAddrRoundTrip(domain: Bytes, p: nat, withTls: bool)
    requires p < U16Limit
    ensures SplitAddr(domain + [COLON] + Decimal(p), withTls) == (domain, Ok(p))
  {
    var addr := domain + [COLON] + Decimal(p);
    forall j | 0 <= j < |Decimal(p)| ensures Decimal(p)[j] != COLON {
      assert IsDigit(Decimal(p)[j]);
    }
    assert addr[|domain| + 1..] == Decimal(p);
    LastColonIs(addr, |domain|);
    assert addr[..|domain|] == domain;
    ParseU16RoundTrip(p);
  }

  /** The last ":" is found wherever it is. */
  lemma {:induction false} LastColonIs(s: Bytes, i: nat)
    requires i < |s| && s[i] == COLON && COLON !in s[i + 1..]
    ensures LastColon(s) == Some(i)
    decreases |s|
  {
    if i < |s| - 1 {
      var t := s[..|s| - 1];
      assert s[|s| - 1] == s[i + 1..][|s| - 2 - i];
      assert t[i + 1..] == s[i + 1..][..|s| - 2 - i];
      LastColonIs(t, i);
    }
  }

  lemma SplitAddrDefault(addr: Bytes, withTls: bool)
    requires COLON !in addr
    ensures SplitAddr(addr, withTls) == (addr, Ok(if withTls then 995 else 110))
  {
  }

  // ---------------------------------------------------------------------------
  // Connecting and reading replies

  /** Why an operation of a `Pop3` connection failed: the port text, the socket or
      TLS layer, or the server's reply. */
  datatype Pop3Failure =
    | BadPort(kind: IntErrorKind)
    | Io(text: Bytes)
    | Reply(error: Pop3Error)

  /** The endpoint a connection was opened to. */
  datatype Endpoint = Endpoint(domain: Bytes, port: nat, tls: bool)

  /** `Pop3::new` once the address has been split: `dial` is what dialling the
      endpoint and reading the greeting gave (the bytes read, or an I/O error);
      the greeting is then read as a status line. */
  function Pop3New(addr: Bytes, withTls: bool, dial: Result<Bytes, Bytes>): (r: Result<(Endpoint, Bytes), Pop3Failure>)
    ensures r.Ok? <==> SplitAddr(addr, withTls).1.Ok? && dial.Ok? && ParseStatusLine(dial.value).Ok?
    ensures r.Ok? ==> r.value.0 == Endpoint(SplitAddr(addr, withTls).0, SplitAddr(addr, withTls).1.value, withTls)
    ensures r.Ok? ==> r.value.0.port < U16Limit && ParseStatusLine(dial.value) == Ok(r.value.1)
  {
    match SplitAddr(addr, withTls)
    case (_, Err(kind)) => Err(BadPort(kind))
    case (domain, Ok(port)) =>
      match dial
      case Err(e) => Err(Io(e))
      case Ok(greeting) =>
        match ParseStatusLine(greeting)
        case Err(e) => Err(Reply(e))
        case Ok(text) => Ok((Endpoint(domain, port, withTls), text))
  }

  /** A port that is not a u16 is refused before anything is dialled, whatever
      dialling would have given. */
  lemma BadPortNeverDials(addr: Bytes, withTls: bool, dial1: Result<Bytes, Bytes>, dial2: Result<Bytes, Bytes>)
    requires SplitAddr(addr, withTls).1.Err?
    ensures Pop3New(addr, withTls, dial1) == Pop3New(addr, withTls, dial2)
    ensures Pop3New(addr, withTls, dial1) == Err(BadPort(SplitAddr(addr, withTls).1.error))
  {
  }

  /** What `Pop3::list(id)` reads: with an id, the single-line answer as a list of
      one listing; without, the multi-line scan listing. */
  function ListReply(id: Option<nat>, buf: Bytes): Result<ScanList, Pop3Error> {
    if id.Some? then
      match ParseSingleList(buf)
      case Ok(ScanResult(l, text)) => Ok(ScanList([l], text))
      case Err(e) => Err(e)
    else Settle(ListResponse(buf))
  }

  /** The two shapes of a positive LIST reply read back through `ListReply`: with
      an id, the single listing after the blanks and its trailing text; without,
      every listing in order, with the trimmed status text. */
  lemma ListReplyRoundTrip(lead: Bytes, l: ScanListing, extra: Bytes, text: Bytes,
                           ls: seq<ScanListing>, extras: seq<Bytes>, id: nat, rest: Bytes)
    requires forall i :: 0 <= i < |lead| ==> IsSpace(lead[i])
    requires Trailer(extra)
    requires NoCrlf(text)
    requires |extras| == |ls| && forall i :: 0 <= i < |extras| ==> Trailer(extras[i])
    ensures ListReply(Some(id), Framed(true, lead + (ListingLine(l) + extra), rest)) == Ok(ScanList([l], extra))
    ensures ListReply(None, Framed(true, text, ListingLines(ls, extras) + Terminator + rest))
         == Ok(ScanList(ls, SkipSpace(text)))
  {
    SingleListRoundTrip(lead, l, extra, rest);
    ListRoundTrip(text, ls, extras, rest);
  }

  /** `Pop3::list`, reading its reply with the parsers. */
  method ReadListReply(id: Option<nat>, buf: Bytes) returns (r: Result<ScanList, Pop3Error>)
    ensures r == ListReply(id, buf)
    ensures id.Some? && r.Ok? ==> |r.value.listings| == 1
  {
    if id.Some? {
      var single := ParseSingleList(buf);
      if single.Ok? {
        return Ok(ScanList([single.value.listing], single.value.text));
      }
      return Err(single.error);
    }
    r := ParseList(buf);
  }
}
