/** What the POP3 parser promises, stated against an independent encoder of the
    wire format: every well-formed response the encoder produces is read back
    exactly, malformed responses are parse errors, and a multi-line body that is
    dot-stuffed on the way out is unstuffed on the way in. */
module Pop3ParserProofs {
  import opened Wrappers
  import opened Bytes
  import opened Pop3Parser

  // ---------------------------------------------------------------------------
  // The encoder (RFC 1939 section 3)

  /** A status line: indicator, text, CRLF. */
  function StatusLine(ok: bool, text: Bytes): Bytes {
    Indicator(ok) + text + CRLF
  }

  /** A status line followed by whatever the server sent after it. */
  function Framed(ok: bool, text: Bytes, rest: Bytes): Bytes {
    StatusLine(ok, text) + rest
  }

  /** `msg` starts with a well-formed status line. */
  ghost predicate IsStatusLine(msg: Bytes) {
    exists ok, text, rest {:trigger Framed(ok, text, rest)} :: NoCrlf(text) && msg == Framed(ok, text, rest)
  }

  /** What `get_status_line` reports for a line with the given indicator and text. */
  function StatusOf(trimOk: bool, trimErr: bool, ok: bool, text: Bytes): Status<Bytes> {
    if ok then Positive(if trimOk then SkipSpace(text) else text)
    else Negative(if trimErr then SkipSpace(text) else text)
  }

  /** Byte-stuffing: a line that begins with "." gets one more "." in front. */
  function Stuff(line: Bytes): Bytes {
    if line != [] && line[0] == DOT then [DOT] + line else line
  }

  /** The lines of a multi-line body, each stuffed and CRLF-terminated. */
  function Stuffed(lines: seq<Bytes>): Bytes {
    if lines == [] then [] else Stuff(lines[0]) + CRLF + Stuffed(lines[1..])
  }

  /** The lines of a message, each CRLF-terminated, as the user sees them. */
  function Body(lines: seq<Bytes>): Bytes {
    if lines == [] then [] else lines[0] + CRLF + Body(lines[1..])
  }

  predicate LinesOk(lines: seq<Bytes>) {
    forall i :: 0 <= i < |lines| ==> NoCrlf(lines[i])
  }

  /** A scan listing's text: the number, one space, the size. */
  function ListingLine(l: ScanListing): Bytes {
    Decimal(l.id) + [SP] + Decimal(l.size)
  }

  /** Text a server may put after the numbers of a listing. */
  predicate Trailer(extra: Bytes) {
    NoCrlf(extra) && (extra == [] || !IsDigit(extra[0]))
  }

  /** The lines of a LIST response, the i-th followed by `extras[i]`. */
  function ListingLines(ls: seq<ScanListing>, extras: seq<Bytes>): Bytes
    requires |extras| == |ls|
  {
    if ls == [] then [] else ListingLine(ls[0]) + extras[0] + CRLF + ListingLines(ls[1..], extras[1..])
  }

  // ---------------------------------------------------------------------------
  // Status lines

  /** `is_ok` recognises exactly the two indicators and leaves what follows. */
  lemma IsOkRoundTrip(ok: bool, rest: Bytes)
    ensures IsOk(Indicator(ok) + rest) == Parsed(rest, ok)
  {
    var msg := Indicator(ok) + rest;
    assert msg[..|Indicator(ok)|] == Indicator(ok);
    if !ok {
      assert msg[0] != PlusOk[0];
    }
  }

  lemma {:induction false} StatusLineRoundTrip(trimOk: bool, trimErr: bool, ok: bool, text: Bytes, rest: Bytes)
    requires NoCrlf(text)
    ensures GetStatusLine(trimOk, trimErr, Framed(ok, text, rest)) == Parsed(rest, StatusOf(trimOk, trimErr, ok, text))
  {
    var after := text + CRLF + rest;
    assert Framed(ok, text, rest) == Indicator(ok) + after;
    IsOkRoundTrip(ok, after);
    FindCrlfAfter(text, rest);
    assert after[..|text|] == text;
    assert after[|text| + 2..] == rest;
  }

  /** Whatever `get_status_line` accepts is a status line, and it reports its text. */
  lemma StatusLineComplete(trimOk: bool, trimErr: bool, msg: Bytes) returns (ok: bool, text: Bytes)
    requires GetStatusLine(trimOk, trimErr, msg).Parsed?
    ensures NoCrlf(text) && msg == Framed(ok, text, GetStatusLine(trimOk, trimErr, msg).rest)
    ensures GetStatusLine(trimOk, trimErr, msg).value == StatusOf(trimOk, trimErr, ok, text)
  {
    var p := IsOk(msg);
    var k := FindCrlf(p.rest).value;
    ok, text := p.value, p.rest[..k];
    SplitAtFirstCrlf(p.rest, k);
    FramedParts(ok, text, p.rest[k + 2..]);
  }

  lemma FramedParts(ok: bool, text: Bytes, rest: Bytes)
    ensures Framed(ok, text, rest) == Indicator(ok) + (text + CRLF + rest)
  {
  }

  /** `get_status_line` fails exactly on input that does not start with a status line,
      whatever the trim flags: a missing indicator or a missing CRLF. */
  lemma StatusLineFailsExactly(trimOk: bool, trimErr: bool, msg: Bytes)
    ensures GetStatusLine(trimOk, trimErr, msg).Fail? <==> !IsStatusLine(msg)
  {
    if GetStatusLine(trimOk, trimErr, msg).Parsed? {
      var ok, text := StatusLineComplete(trimOk, trimErr, msg);
      assert msg == Framed(ok, text, GetStatusLine(trimOk, trimErr, msg).rest);
    }
    if IsStatusLine(msg) {
      var ok, text, rest :| NoCrlf(text) && msg == Framed(ok, text, rest);
      StatusLineRoundTrip(trimOk, trimErr, ok, text, rest);
    }
  }

  /** `parse_status_line`: `+OK` gives the trimmed text, `-ERR` the trimmed text
      as the server's error, and a malformed response a parse error. */
  lemma ParseStatusLineCases(msg: Bytes)
    ensures !IsStatusLine(msg) <==> ParseStatusLine(msg) == Err(ParseError)
    ensures forall ok, text, rest {:trigger Framed(ok, text, rest)} :: NoCrlf(text) && msg == Framed(ok, text, rest) ==>
      ParseStatusLine(msg) == if ok then Ok(SkipSpace(text)) else Err(ServerError(SkipSpace(text)))
  {
    StatusLineFailsExactly(true, true, msg);
    forall ok, text, rest | NoCrlf(text) && msg == Framed(ok, text, rest)
      ensures ParseStatusLine(msg) == if ok then Ok(SkipSpace(text)) else Err(ServerError(SkipSpace(text)))
    {
      StatusLineRoundTrip(true, true, ok, text, rest);
    }
  }

  /** A `-ERR` line answers every command the same way: its trimmed text. */
  lemma NegativeReplies(text: Bytes, rest: Bytes)
    requires NoCrlf(text)
    ensures GetStatResult(Framed(false, text, rest)) == Parsed(rest, Negative(SkipSpace(text)))
    ensures GetSingleListResult(Framed(false, text, rest)) == Parsed(rest, Negative(SkipSpace(text)))
    ensures ListResponse(Framed(false, text, rest)) == Parsed(rest, Negative(SkipSpace(text)))
    ensures RetrResponse(Framed(false, text, rest)) == Parsed(rest, Negative(SkipSpace(text)))
  {
    StatusLineRoundTrip(false, true, false, text, rest);
    StatusLineRoundTrip(true, true, false, text, rest);
  }

  // ---------------------------------------------------------------------------
  // Lines of a multi-line response

  /** A stuffed line is read back as the original line. */
  lemma GetLineRoundTrip(line: Bytes, rest: Bytes)
    requires NoCrlf(line)
    ensures GetLine(Stuff(line) + CRLF + rest) == Parsed(rest, Some(line))
    ensures GetLineWithCrlf(Stuff(line) + CRLF + rest) == Parsed(rest, Some(line + CRLF))
  {
    var msg := Stuff(line) + CRLF + rest;
    var body := line + CRLF + rest;
    FindCrlfAfter(line, rest);
    assert body[..|line|] == line && body[..|line| + 2] == line + CRLF && body[|line| + 2..] == rest;
    if line != [] && line[0] == DOT {
      assert msg == [DOT] + body;
      assert msg[1..] == body;
    } else {
      assert msg == body;
      assert line == [] ==> msg[0] == CR;
    }
  }

  /** The terminator line ends the response and nothing more is consumed. */
  lemma TerminatorLine(rest: Bytes)
    ensures GetLine(Terminator + rest) == Parsed(rest, None)
    ensures GetLineWithCrlf(Terminator + rest) == Parsed(rest, None)
  {
    var msg := Terminator + rest;
    assert msg[1..] == CRLF + rest;
    FindCrlfAfter([], rest);
    assert (CRLF + rest)[..2] == CRLF && (CRLF + rest)[2..] == rest;
  }

  /** `get_line` reads either the terminator, or a line without CRLF that was sent
      as it is (not starting with ".") or with one "." in front. */
  lemma GetLineComplete(msg: Bytes)
    requires GetLine(msg).Parsed?
    ensures var r := GetLine(msg);
      (r.value.None? ==> msg == Terminator + r.rest) &&
      (r.value.Some? ==>
        NoCrlf(r.value.value) &&
        (((r.value.value == [] || r.value.value[0] != DOT) && msg == r.value.value + CRLF + r.rest) ||
         (r.value.value != [] && msg == [DOT] + (r.value.value + CRLF + r.rest))))
  {
    if GetLine(msg).value.None? {
      GetLineTerminator(msg);
    } else if msg != [] && msg[0] == DOT {
      GetLineDotted(msg);
    } else {
      GetLinePlain(msg);
    }
  }

  lemma GetLinePlain(msg: Bytes)
    requires GetLine(msg).Parsed? && (msg == [] || msg[0] != DOT)
    ensures GetLine(msg).value.Some?
    ensures var line := GetLine(msg).value.value;
      NoCrlf(line) && (line == [] || line[0] != DOT) && msg == line + CRLF + GetLine(msg).rest
  {
    var k := FindCrlf(msg).value;
    SplitAtFirstCrlf(msg, k);
  }

  lemma GetLineTerminator(msg: Bytes)
    requires GetLine(msg).Parsed? && GetLine(msg).value.None?
    ensures msg == Terminator + GetLine(msg).rest
  {
    var body := msg[1..];
    var k := FindCrlf(body).value;
    assert k == 0;
    SplitAtFirstCrlf(body, k);
    assert body[..k] == [];
    assert msg == [DOT] + body;
  }

  lemma GetLineDotted(msg: Bytes)
    requires GetLine(msg).Parsed? && GetLine(msg).value.Some? && msg != [] && msg[0] == DOT
    ensures var line := GetLine(msg).value.value;
      NoCrlf(line) && line != [] && msg == [DOT] + (line + CRLF + GetLine(msg).rest)
  {
    var body := msg[1..];
    var k := FindCrlf(body).value;
    SplitAtFirstCrlf(body, k);
    assert msg == [DOT] + body;
  }

  /** Dot-stuffing round trip: the unstuffed lines of a stuffed body are the body. */
  lemma {:induction false} MailLinesRoundTrip(lines: seq<Bytes>, rest: Bytes)
    requires LinesOk(lines)
    ensures MailLines(Stuffed(lines) + Terminator + rest) == Parsed(rest, Body(lines))
  {
    if lines == [] {
      TerminatorLine(rest);
      assert Stuffed(lines) + Terminator + rest == Terminator + rest;
    } else {
      var tail := Stuffed(lines[1..]) + Terminator + rest;
      assert Stuffed(lines) + Terminator + rest == Stuff(lines[0]) + CRLF + tail;
      GetLineRoundTrip(lines[0], tail);
      MailLinesRoundTrip(lines[1..], rest);
      assert (lines[0] + CRLF) + Body(lines[1..]) == Body(lines);
    }
  }

  /** `get_retr_result` gives back the message a server sent dot-stuffed. */
  lemma RetrRoundTrip(text: Bytes, lines: seq<Bytes>, rest: Bytes)
    requires NoCrlf(text) && LinesOk(lines)
    ensures RetrResponse(Framed(true, text, Stuffed(lines) + Terminator + rest))
         == Parsed(rest, Positive(Mail(Body(lines), SkipSpace(text))))
  {
    StatusLineRoundTrip(true, true, true, text, Stuffed(lines) + Terminator + rest);
    MailLinesRoundTrip(lines, rest);
  }

  /** A multi-line body cut off before its terminator line is a parse error. */
  lemma {:induction false} MailLinesNeedTerminator(lines: seq<Bytes>)
    requires LinesOk(lines)
    ensures MailLines(Stuffed(lines)) == Fail
  {
    if lines != [] {
      var tail := Stuffed(lines[1..]);
      GetLineRoundTrip(lines[0], tail);
      MailLinesNeedTerminator(lines[1..]);
    }
  }

  // ---------------------------------------------------------------------------
  // Numbers and listings

  lemma {:induction false} DigitRunOfNumeral(d: Bytes, rest: Bytes)
    requires AllDigits(d) && (rest == [] || !IsDigit(rest[0]))
    ensures DigitRun(d + rest) == |d|
  {
    if d == [] {
      assert d + rest == rest;
    } else {
      assert (d + rest)[1..] == d[1..] + rest;
      DigitRunOfNumeral(d[1..], rest);
    }
  }

  /** `digit1` reads back a formatted number when no digit follows it. */
  lemma Digit1RoundTrip(n: nat, rest: Bytes)
    requires rest == [] || !IsDigit(rest[0])
    ensures Digit1(Decimal(n) + rest) == Parsed(rest, n)
  {
    var d := Decimal(n);
    DigitRunOfNumeral(d, rest);
    assert (d + rest)[..|d|] == d && (d + rest)[|d|..] == rest;
    DecimalRoundTrip(n);
  }

  /** `get_scan_listing` reads back a listing and leaves the text after it. */
  lemma ScanListingRoundTrip(l: ScanListing, extra: Bytes)
    requires extra == [] || !IsDigit(extra[0])
    ensures GetScanListing(ListingLine(l) + extra) == Parsed(extra, l)
  {
    var a, b := Decimal(l.id), Decimal(l.size);
    var tail := [SP] + (b + extra);
    assert ListingLine(l) + extra == a + tail;
    Digit1RoundTrip(l.id, tail);
    assert tail[1..] == b + extra;
    assert Char(SP, tail) == Parsed(b + extra, SP);
    Digit1RoundTrip(l.size, extra);
  }

  /** A listing line holds no CRLF and does not start with ".". */
  lemma ListingLineShape(l: ScanListing, extra: Bytes)
    requires NoCrlf(extra)
    ensures NoCrlf(ListingLine(l) + extra)
    ensures Stuff(ListingLine(l) + extra) == ListingLine(l) + extra
  {
    var s := ListingLine(l) + extra;
    var n := |ListingLine(l)|;
    assert forall i :: 0 <= i < n ==> s[i] == ListingLine(l)[i];
    assert forall i :: 0 <= i < n ==> ListingLine(l)[i] != CR;
    forall i | 0 <= i < |s| ensures !CrlfAt(s, i) {
      if i >= n {
        assert !CrlfAt(extra, i - n);
      }
    }
  }

  /** One listing line, then the rest of the listing. */
  lemma ScanLinesStep(l: ScanListing, extra: Bytes, tail: Bytes)
    requires Trailer(extra)
    ensures ScanLines(ListingLine(l) + extra + CRLF + tail) == Prepend([l], ScanLines(tail))
  {
    var line := ListingLine(l) + extra;
    ListingLineShape(l, extra);
    GetLineRoundTrip(line, tail);
    ScanListingRoundTrip(l, extra);
  }

  lemma {:induction false} ScanLinesRoundTrip(ls: seq<ScanListing>, extras: seq<Bytes>, rest: Bytes)
    requires |extras| == |ls| && forall i :: 0 <= i < |extras| ==> Trailer(extras[i])
    ensures ScanLines(ListingLines(ls, extras) + Terminator + rest) == Parsed(rest, ls)
  {
    if ls == [] {
      TerminatorLine(rest);
      assert ListingLines(ls, extras) + Terminator + rest == Terminator + rest;
    } else {
      var tail := ListingLines(ls[1..], extras[1..]) + Terminator + rest;
      assert ListingLines(ls, extras) + Terminator + rest == ListingLine(ls[0]) + extras[0] + CRLF + tail;
      ScanLinesStep(ls[0], extras[0], tail);
      ScanLinesRoundTrip(ls[1..], extras[1..], rest);
      assert [ls[0]] + ls[1..] == ls;
    }
  }

  /** `get_list_result` returns the listings in server order, discarding the text
      after each, and the trimmed status text. */
  lemma ListRoundTrip(text: Bytes, ls: seq<ScanListing>, extras: seq<Bytes>, rest: Bytes)
    requires NoCrlf(text)
    requires |extras| == |ls| && forall i :: 0 <= i < |extras| ==> Trailer(extras[i])
    ensures ListResponse(Framed(true, text, ListingLines(ls, extras) + Terminator + rest))
         == Parsed(rest, Positive(ScanList(ls, SkipSpace(text))))
  {
    StatusLineRoundTrip(true, true, true, text, ListingLines(ls, extras) + Terminator + rest);
    ScanLinesRoundTrip(ls, extras, rest);
  }

  /** A listing cut off before its terminator line is a parse error. */
  lemma {:induction false} ScanLinesNeedTerminator(ls: seq<ScanListing>, extras: seq<Bytes>)
    requires |extras| == |ls| && forall i :: 0 <= i < |extras| ==> Trailer(extras[i])
    ensures ScanLines(ListingLines(ls, extras)) == Fail
  {
    if ls != [] {
      var tail := ListingLines(ls[1..], extras[1..]);
      assert ListingLines(ls, extras) == ListingLine(ls[0]) + extras[0] + CRLF + tail;
      ScanLinesStep(ls[0], extras[0], tail);
      ScanLinesNeedTerminator(ls[1..], extras[1..]);
    }
  }

  // ---------------------------------------------------------------------------
  // STAT and LIST <id>

  /** The STAT figures are one space and then a scan listing. */
  lemma StatFieldsAfterSpace(listing: Bytes)
    ensures StatFields([SP] + listing) == match GetScanListing(listing)
      case Fail => Fail
      case Parsed(extra, l) => Parsed(extra, (l.id, l.size))
  {
    assert ([SP] + listing)[1..] == listing;
  }

  /** The STAT figures read back as the two numbers, the text after them kept. */
  lemma StatFieldsRoundTrip(count: nat, size: nat, extra: Bytes)
    requires extra == [] || !IsDigit(extra[0])
    ensures StatFields([SP] + (ListingLine(ScanListing(count, size)) + extra)) == Parsed(extra, (count, size))
  {
    StatFieldsAfterSpace(ListingLine(ScanListing(count, size)) + extra);
    ScanListingRoundTrip(ScanListing(count, size), extra);
  }

  /** `get_stat_result` reads back " count size" and keeps what follows verbatim. */
  lemma StatRoundTrip(count: nat, size: nat, extra: Bytes, rest: Bytes)
    requires Trailer(extra)
    ensures GetStatResult(Framed(true, [SP] + (ListingLine(ScanListing(count, size)) + extra), rest))
         == Parsed(rest, Positive(DropListing(count, size, extra)))
  {
    var body := ListingLine(ScanListing(count, size)) + extra;
    ListingLineShape(ScanListing(count, size), extra);
    NoCrlfConcat([SP], body);
    StatusLineRoundTrip(false, true, true, [SP] + body, rest);
    StatFieldsRoundTrip(count, size, extra);
  }

  /** STAT text is not trimmed: anything but one space and a digit after `+OK`
      is a parse error. */
  lemma StatNeedsSpaceThenDigit(text: Bytes, rest: Bytes)
    requires NoCrlf(text)
    requires !(|text| >= 2 && text[0] == SP && IsDigit(text[1]))
    ensures GetStatResult(Framed(true, text, rest)) == Fail
  {
    StatusLineRoundTrip(false, true, true, text, rest);
  }

  lemma {:induction false} SkipSpaceLead(lead: Bytes, s: Bytes)
    requires forall i :: 0 <= i < |lead| ==> IsSpace(lead[i])
    requires s == [] || !IsSpace(s[0])
    ensures SkipSpace(lead + s) == s
  {
    if lead == [] {
      assert lead + s == s;
    } else {
      assert (lead + s)[1..] == lead[1..] + s;
      SkipSpaceLead(lead[1..], s);
    }
  }

  /** `get_single_list_result` reads back a listing after any leading blanks. */
  lemma SingleListRoundTrip(lead: Bytes, l: ScanListing, extra: Bytes, rest: Bytes)
    requires forall i :: 0 <= i < |lead| ==> IsSpace(lead[i])
    requires Trailer(extra)
    ensures GetSingleListResult(Framed(true, lead + (ListingLine(l) + extra), rest))
         == Parsed(rest, Positive(ScanResult(l, extra)))
  {
    var body := ListingLine(l) + extra;
    ListingLineShape(l, extra);
    SpacesHaveNoCrlf(lead);
    NoCrlfConcat(lead, body);
    StatusLineRoundTrip(true, true, true, lead + body, rest);
    SkipSpaceLead(lead, body);
    ScanListingRoundTrip(l, extra);
  }

  lemma SpacesHaveNoCrlf(lead: Bytes)
    requires forall i :: 0 <= i < |lead| ==> IsSpace(lead[i])
    ensures NoCrlf(lead)
  {
  }

  /** A number not followed by a space is not a scan listing. */
  lemma ScanListingNeedsSpace(n: nat, tail: Bytes)
    requires tail == [] || (!IsDigit(tail[0]) && tail[0] != SP)
    ensures GetScanListing(Decimal(n) + tail) == Fail
  {
    Digit1RoundTrip(n, tail);
  }

  /** The answer to `LIST <id>` needs both numbers: a lone number is a parse error. */
  lemma SingleListNeedsTwoNumbers(n: nat, tail: Bytes, rest: Bytes)
    requires NoCrlf(tail) && (tail == [] || (!IsDigit(tail[0]) && tail[0] != SP))
    ensures GetSingleListResult(Framed(true, Decimal(n) + tail, rest)) == Fail
  {
    var text := Decimal(n) + tail;
    DigitsHaveNoCrlf(Decimal(n));
    NoCrlfConcat(Decimal(n), tail);
    StatusLineRoundTrip(true, true, true, text, rest);
    assert SkipSpace(text) == text;
    ScanListingNeedsSpace(n, tail);
  }
}
