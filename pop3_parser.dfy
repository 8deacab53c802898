/** The POP3 response parser (RFC 1939): status indicators, the STAT drop
    listing, LIST scan listings and multi-line responses ended by a lone ".",
    read from complete byte buffers. Each parser returns the unconsumed input
    together with its value, as nom's `IResult` does. */
module Pop3Parser {
  import opened Wrappers
  import opened Bytes

  /** A parser's outcome: the unconsumed input and a value, or a parse error
      (nom's error kind and position are not modelled). */
  datatype Parse<+T> = Parsed(rest: Bytes, value: T) | Fail

  /** What a status line announces: `+OK` with a value, or `-ERR` with a message. */
  datatype Status<+T> = Positive(value: T) | Negative(text: Bytes)

  /** One scan listing of RFC 1939 section 5: a message number and its size in octets. */
  datatype ScanListing = ScanListing(id: nat, size: nat)

  /** The STAT answer: message count, maildrop size, and the status text after them. */
  datatype DropListing = DropListing(count: nat, size: nat, text: Bytes)

  /** The answer to `LIST <id>`: one scan listing and the text after it. */
  datatype ScanResult = ScanResult(listing: ScanListing, text: Bytes)

  /** The answer to `LIST`: the scan listings in server order and the status text. */
  datatype ScanList = ScanList(listings: seq<ScanListing>, text: Bytes)

  /** The answer to `RETR`: the unstuffed message and the status text. */
  datatype Mail = Mail(body: Bytes, text: Bytes)

  /** The error of a `parse_*` entry point: the server's `-ERR` text, or a malformed
      response (the wording of nom's error is not modelled). */
  datatype Pop3Error = ServerError(text: Bytes) | ParseError

  /** "+OK" and "-ERR" in ASCII. */
  const PlusOk: Bytes := [43, 79, 75]
  const MinusErr: Bytes := [45, 69, 82, 82]
  /** The line that ends a multi-line response. */
  const Terminator: Bytes := [DOT] + CRLF

  function Indicator(ok: bool): Bytes {
    if ok then PlusOk else MinusErr
  }

  predicate StartsWith(s: Bytes, prefix: Bytes) {
    |prefix| <= |s| && s[..|prefix|] == prefix
  }

  /** `r` is what is left of `s` after a parser consumed at least `n` bytes. */
  predicate ConsumedAtLeast(s: Bytes, r: Bytes, n: nat) {
    |r| + n <= |s| && r == s[|s| - |r|..]
  }

  // ---------------------------------------------------------------------------
  // Status lines

  /** `is_ok`: the status indicator at the start of a response. */
  function IsOk(msg: Bytes): (r: Parse<bool>)
    ensures r.Parsed? ==> msg == Indicator(r.value) + r.rest
    ensures r.Fail? <==> !StartsWith(msg, PlusOk) && !StartsWith(msg, MinusErr)
  {
    if StartsWith(msg, PlusOk) then Parsed(msg[3..], true)
    else if StartsWith(msg, MinusErr) then Parsed(msg[4..], false)
    else Fail
  }

  /** `get_status_line(trim_ok, trim_err)`: the indicator, the text up to the first
      CRLF, and the CRLF. The text loses its leading spaces and tabs when the
      matching trim flag is set. */
  function GetStatusLine(trimOk: bool, trimErr: bool, msg: Bytes): (r: Parse<Status<Bytes>>)
    ensures r.Parsed? ==> ConsumedAtLeast(msg, r.rest, 2)
  {
    match IsOk(msg)
    case Fail => Fail
    case Parsed(after, ok) =>
      match FindCrlf(after)
      case None => Fail
      case Some(k) =>
        var text := after[..k];
        var trimmed := SkipSpace(text);
        Parsed(after[k + 2..],
               if ok then Positive(if trimOk then trimmed else text)
               else Negative(if trimErr then trimmed else text))
  }

  /** How every `parse_*` entry point settles a parse: `+OK` succeeds, `-ERR`
      fails with the server's text, anything malformed fails with a parse error. */
  function Settle<T>(p: Parse<Status<T>>): Result<T, Pop3Error> {
    match p
    case Parsed(_, Positive(v)) => Ok(v)
    case Parsed(_, Negative(t)) => Err(ServerError(t))
    case Fail => Err(ParseError)
  }

  /** `parse_status_line`: a single-line response, its text trimmed. */
  function ParseStatusLine(msg: Bytes): Result<Bytes, Pop3Error> {
    Settle(GetStatusLine(true, true, msg))
  }

  // ---------------------------------------------------------------------------
  // Lines of a multi-line response

  /** `get_line`: one line without its CRLF. A lone "." is the terminator (None);
      otherwise one leading "." is removed. */
  function GetLine(msg: Bytes): (r: Parse<Option<Bytes>>)
    ensures r.Parsed? ==> ConsumedAtLeast(msg, r.rest, 2)
  {
    var dotted := msg != [] && msg[0] == DOT;
    var body := if dotted then msg[1..] else msg;
    match FindCrlf(body)
    case None => Fail
    case Some(k) =>
      if dotted && k == 0 then Parsed(body[2..], None)
      else Parsed(body[k + 2..], Some(body[..k]))
  }

  /** `get_line_with_crlf`: as `get_line`, but the line keeps its CRLF. */
  function GetLineWithCrlf(msg: Bytes): (r: Parse<Option<Bytes>>)
    ensures r.Parsed? ==> ConsumedAtLeast(msg, r.rest, 2)
  {
    var dotted := msg != [] && msg[0] == DOT;
    var body := if dotted then msg[1..] else msg;
    match FindCrlf(body)
    case None => Fail
    case Some(k) =>
      if dotted && body[..k + 2] == CRLF then Parsed(body[k + 2..], None)
      else Parsed(body[k + 2..], Some(body[..k + 2]))
  }

  // ---------------------------------------------------------------------------
  // Numbers and listings

  /** nom's `char(c)`. */
  function Char(c: byte, msg: Bytes): (r: Parse<byte>) {
    if msg != [] && msg[0] == c then Parsed(msg[1..], c) else Fail
  }

  /** nom's `digit1`, with the digits read as a number. */
  function Digit1(msg: Bytes): (r: Parse<nat>) {
    var k := DigitRun(msg);
    if k == 0 then Fail else Parsed(msg[k..], DecimalValue(msg[..k]))
  }

  /** `get_scan_listing`: digits, one space, digits. */
  function GetScanListing(msg: Bytes): (r: Parse<ScanListing>) {
    match Digit1(msg)
    case Fail => Fail
    case Parsed(a, id) =>
      match Char(SP, a)
      case Fail => Fail
      case Parsed(b, _) =>
        match Digit1(b)
        case Fail => Fail
        case Parsed(c, size) => Parsed(c, ScanListing(id, size))
  }

  /** The STAT figures, `tuple((char(' '), digit1, char(' '), digit1))`. */
  function StatFields(stat: Bytes): (r: Parse<(nat, nat)>) {
    match Char(SP, stat)
    case Fail => Fail
    case Parsed(a, _) =>
      match Digit1(a)
      case Fail => Fail
      case Parsed(b, count) =>
        match Char(SP, b)
        case Fail => Fail
        case Parsed(c, _) =>
          match Digit1(c)
          case Fail => Fail
          case Parsed(extra, size) => Parsed(extra, (count, size))
  }

  /** `get_stat_result`: the untrimmed `+OK` text must be one space, digits, one
      space, digits; what follows them is returned verbatim. */
  function GetStatResult(msg: Bytes): (r: Parse<Status<DropListing>>) {
    match GetStatusLine(false, true, msg)
    case Fail => Fail
    case Parsed(rest, Negative(t)) => Parsed(rest, Negative(t))
    case Parsed(rest, Positive(stat)) =>
      match StatFields(stat)
      case Fail => Fail
      case Parsed(extra, (count, size)) => Parsed(rest, Positive(DropListing(count, size, extra)))
  }

  /** `parse_stat`. */
  function ParseStat(msg: Bytes): Result<DropListing, Pop3Error> {
    Settle(GetStatResult(msg))
  }

  /** `get_single_list_result`: a trimmed `+OK` text that starts with a scan listing. */
  function GetSingleListResult(msg: Bytes): (r: Parse<Status<ScanResult>>) {
    match GetStatusLine(true, true, msg)
    case Fail => Fail
    case Parsed(rest, Negative(t)) => Parsed(rest, Negative(t))
    case Parsed(rest, Positive(list)) =>
      match GetScanListing(list)
      case Fail => Fail
      case Parsed(extra, l) => Parsed(rest, Positive(ScanResult(l, extra)))
  }

  /** `parse_single_list`. */
  function ParseSingleList(msg: Bytes): Result<ScanResult, Pop3Error> {
    Settle(GetSingleListResult(msg))
  }

  // ---------------------------------------------------------------------------
  // Multi-line responses

  /** Puts `acc` in front of a parsed sequence. */
  function Prepend<T>(acc: seq<T>, p: Parse<seq<T>>): Parse<seq<T>> {
    match p
    case Fail => Fail
    case Parsed(r, xs) => Parsed(r, acc + xs)
  }

  lemma PrependNothing<T>(p: Parse<seq<T>>)
    ensures Prepend([], p) == p
  {
    if p.Parsed? {
      assert [] + p.value == p.value;
    }
  }

  lemma PrependPrepend<T>(a: seq<T>, b: seq<T>, p: Parse<seq<T>>)
    ensures Prepend(a, Prepend(b, p)) == Prepend(a + b, p)
  {
    if p.Parsed? {
      assert a + (b + p.value) == (a + b) + p.value;
    }
  }

  /** The scan listings up to the terminator line, in order; the text after
      each listing on its line is discarded. */
  function ScanLines(rest: Bytes): Parse<seq<ScanListing>>
    decreases |rest|
  {
    match GetLine(rest)
    case Fail => Fail
    case Parsed(r, None) => Parsed(r, [])
    case Parsed(r, Some(line)) =>
      match GetScanListing(line)
      case Fail => Fail
      case Parsed(_, l) => Prepend([l], ScanLines(r))
  }

  /** What `get_list_result` computes. */
  function ListResponse(msg: Bytes): Parse<Status<ScanList>> {
    match GetStatusLine(true, true, msg)
    case Fail => Fail
    case Parsed(after, Negative(t)) => Parsed(after, Negative(t))
    case Parsed(after, Positive(text)) =>
      match ScanLines(after)
      case Fail => Fail
      case Parsed(r, ls) => Parsed(r, Positive(ScanList(ls, text)))
  }

  /** The unstuffed lines, CRLFs kept, up to the terminator line. */
  function MailLines(rest: Bytes): Parse<Bytes>
    decreases |rest|
  {
    match GetLineWithCrlf(rest)
    case Fail => Fail
    case Parsed(r, None) => Parsed(r, [])
    case Parsed(r, Some(line)) => Prepend(line, MailLines(r))
  }

  /** What `get_retr_result` computes. */
  function RetrResponse(msg: Bytes): Parse<Status<Mail>> {
    match GetStatusLine(true, true, msg)
    case Fail => Fail
    case Parsed(after, Negative(t)) => Parsed(after, Negative(t))
    case Parsed(after, Positive(text)) =>
      match MailLines(after)
      case Fail => Fail
      case Parsed(r, body) => Parsed(r, Positive(Mail(body, text)))
  }

  /** `get_list_result`: the loop that reads scan listings until the terminator. */
  method GetListResult(msg: Bytes) returns (r: Parse<Status<ScanList>>)
    ensures r == ListResponse(msg)
  {
    var status := GetStatusLine(true, true, msg);
    if status.Fail? {
      return Fail;
    }
    var after := status.rest;
    if status.value.Negative? {
      return Parsed(after, Negative(status.value.text));
    }
    var text := status.value.value;
    var rest := after;
    var list: seq<ScanListing> := [];
    PrependNothing(ScanLines(rest));
    while true
      invariant ScanLines(after) == Prepend(list, ScanLines(rest))
      decreases |rest|
    {
      var line := GetLine(rest);
      if line.Fail? {
        return Fail;
      }
      if line.value.None? {
        assert list + [] == list;
        return Parsed(line.rest, Positive(ScanList(list, text)));
      }
      var listing := GetScanListing(line.value.value);
      if listing.Fail? {
        return Fail;
      }
      PrependPrepend(list, [listing.value], ScanLines(line.rest));
      list := list + [listing.value];
      rest := line.rest;
    }
  }

  /** `get_retr_result`: the loop that appends unstuffed lines until the terminator. */
  method GetRetrResult(msg: Bytes) returns (r: Parse<Status<Mail>>)
    ensures r == RetrResponse(msg)
  {
    var status := GetStatusLine(true, true, msg);
    if status.Fail? {
      return Fail;
    }
    var after := status.rest;
    if status.value.Negative? {
      return Parsed(after, Negative(status.value.text));
    }
    var text := status.value.value;
    var rest := after;
    var mail: Bytes := [];
    PrependNothing(MailLines(rest));
    while true
      invariant MailLines(after) == Prepend(mail, MailLines(rest))
      decreases |rest|
    {
      var line := GetLineWithCrlf(rest);
      if line.Fail? {
        return Fail;
      }
      if line.value.None? {
        assert mail + [] == mail;
        return Parsed(line.rest, Positive(Mail(mail, text)));
      }
      PrependPrepend(mail, line.value.value, MailLines(line.rest));
      mail := mail + line.value.value;
      rest := line.rest;
    }
  }

  /** `parse_list`. */
  method ParseList(msg: Bytes) returns (r: Result<ScanList, Pop3Error>)
    ensures r == Settle(ListResponse(msg))
  {
    var p := GetListResult(msg);
    r := Settle(p);
  }

  /** `parse_retr_result`. */
  method ParseRetrResult(msg: Bytes) returns (r: Result<Mail, Pop3Error>)
    ensures r == Settle(RetrResponse(msg))
  {
    var p := GetRetrResult(msg);
    r := Settle(p);
  }
}
