/** The mail list page: the STAT and LIST effects that run when it opens, the RETR
    click on one mail, the logout button, and `MailCard`'s sorting of a mail's
    parts into HTML, plain-text and binary tabs. */
module MailListPage {
  import opened Wrappers
  import opened Bytes
  import opened ErrorCheck
  import opened ConsoleState

  /** One entry of the mail list: a scan listing. */
  datatype MailInfo = MailInfo(index: nat, bytes: nat)

  /** One part of a parsed mail. */
  datatype MailPart = Text(text: string) | Html(html: string) | Bin(data: Bytes)

  /** A mail as the backend's `retr` returns it. */
  datatype MailData = MailData(raw: string, subject: string, from: string, to: string, time: string, parts: seq<MailPart>)

  // ---------------------------------------------------------------------------
  // Number and line text

  /** ASCII bytes as text. */
  function AsText(b: Bytes): (t: string)
    ensures |t| == |b| && forall i :: 0 <= i < |b| ==> t[i] as int == b[i] as int
  {
    seq(|b|, i requires 0 <= i < |b| => (b[i] as int) as char)
  }

  /** `${n}` for a whole number. */
  function NatText(n: nat): string {
    AsText(Decimal(n))
  }

  /** A number's text is never empty and holds no space. */
  lemma NatTextShape(n: nat)
    ensures NatText(n) != [] && forall i :: 0 <= i < |NatText(n)| ==> NatText(n)[i] != ' '
  {
    var d := Decimal(n);
    forall i | 0 <= i < |NatText(n)| ensures NatText(n)[i] != ' ' {
      assert IsDigit(d[i]);
    }
  }

  /** Texts joined by a single space split back at the first space, when the first
      text holds no space. */
  lemma SplitAtSpace(a: string, b: string, c: string, d: string)
    requires forall i :: 0 <= i < |a| ==> a[i] != ' '
    requires forall i :: 0 <= i < |c| ==> c[i] != ' '
    requires a + " " + b == c + " " + d
    ensures a == c && b == d
  {
    var x := a + " " + b;
    assert x[|a|] == ' ' && x[|c|] == ' ';
    assert forall i :: 0 <= i < |a| ==> x[i] == a[i];
    assert forall i :: 0 <= i < |c| ==> x[i] == c[i];
    assert |a| == |c|;
    assert a == x[..|a|] == c;
    assert b == x[|a| + 1..] == d;
  }

  /** The STAT response as logged: `"<num> <bytes> <msg>"`. */
  function StatText(count: nat, size: nat, msg: string): string {
    NatText(count) + " " + NatText(size) + " " + msg
  }

  /** The logged STAT line determines the counts and the text. */
  lemma StatTextReadBack(c1: nat, s1: nat, m1: string, c2: nat, s2: nat, m2: string)
    requires StatText(c1, s1, m1) == StatText(c2, s2, m2)
    ensures c1 == c2 && s1 == s2 && m1 == m2
  {
    NatTextShape(c1);
    NatTextShape(c2);
    NatTextShape(s1);
    NatTextShape(s2);
    assert StatText(c1, s1, m1) == NatText(c1) + " " + (NatText(s1) + " " + m1);
    assert StatText(c2, s2, m2) == NatText(c2) + " " + (NatText(s2) + " " + m2);
    SplitAtSpace(NatText(c1), NatText(s1) + " " + m1, NatText(c2), NatText(s2) + " " + m2);
    SplitAtSpace(NatText(s1), m1, NatText(s2), m2);
    DecimalInjective(c1, c2);
    DecimalInjective(s1, s2);
  }

  const CrLf: string := "\r\n"

  /** `xs.join(sep)`. */
  function Join(xs: seq<string>, sep: string): string {
    if xs == [] then ""
    else if |xs| == 1 then xs[0]
    else xs[0] + sep + Join(xs[1..], sep)
  }

  /** Every text followed by CRLF: the lines of a multi-line response. */
  function Terminated(xs: seq<string>): string {
    if xs == [] then "" else xs[0] + CrLf + Terminated(xs[1..])
  }

  /** Joining with CRLF and ending with one more CRLF terminates every line. */
  lemma {:induction false} JoinTerminated(xs: seq<string>)
    requires xs != []
    ensures Join(xs, CrLf) + CrLf == Terminated(xs)
  {
    if |xs| > 1 {
      JoinTerminated(xs[1..]);
      assert xs[0] + CrLf + Join(xs[1..], CrLf) + CrLf == xs[0] + CrLf + (Join(xs[1..], CrLf) + CrLf);
    }
  }

  /** One listing as the transcript shows it: `"<index> <bytes>"`. */
  function ListingEntry(l: (nat, nat)): string {
    NatText(l.0) + " " + NatText(l.1)
  }

  function ListingEntries(ls: seq<(nat, nat)>): (es: seq<string>)
    ensures |es| == |ls| && forall i :: 0 <= i < |ls| ==> es[i] == ListingEntry(ls[i])
  {
    if ls == [] then [] else [ListingEntry(ls[0])] + ListingEntries(ls[1..])
  }

  /** The LIST response as logged. */
  function ListingText(msg: string, ls: seq<(nat, nat)>): string {
    msg + CrLf + Join(ListingEntries(ls), CrLf) + "\r\n.\r\n"
  }

  /** With at least one listing the logged text is the multi-line response of
      RFC 1939 without its status indicator: the status text, every listing on a
      line of its own, and the terminating dot line. */
  lemma ListingTextIsMultiLine(msg: string, ls: seq<(nat, nat)>)
    requires ls != []
    ensures ListingText(msg, ls) == msg + CrLf + Terminated(ListingEntries(ls)) + ".\r\n"
  {
    var j := Join(ListingEntries(ls), CrLf);
    JoinTerminated(ListingEntries(ls));
    assert msg + CrLf + j + "\r\n.\r\n" == msg + CrLf + (j + CrLf) + ".\r\n";
  }

  /** An empty maildrop is logged with a blank line before the dot line, which
      the server did not send. */
  lemma EmptyListingText(msg: string)
    ensures ListingText(msg, []) == msg + "\r\n\r\n.\r\n"
  {
  }

  /** The RETR response as logged: status text, CRLF, the raw mail, the dot line. */
  function RetrText(msg: string, raw: string): string {
    msg + CrLf + raw + ".\r\n"
  }

  /** The mail list built from the listings. */
  function Infos(ls: seq<(nat, nat)>): (infos: seq<MailInfo>)
    ensures |infos| == |ls|
    ensures forall i :: 0 <= i < |ls| ==> infos[i] == MailInfo(ls[i].0, ls[i].1)
  {
    if ls == [] then [] else [MailInfo(ls[0].0, ls[0].1)] + Infos(ls[1..])
  }

  // ---------------------------------------------------------------------------
  // The handlers as functions of the state

  /** The page's state together with the containers it uses. */
  datatype MailView = MailView(app: AppView, mailData: Option<MailData>, fetching: bool, mailInfos: seq<MailInfo>)

  /** Logging a command's echo. */
  function Echo(v: AppView, echo: string): AppView {
    Append(v, ConsoleMsg(Command, Info, echo))
  }

  /** A `catch` block that only calls `logError("response", err)`. */
  function Catch(v: AppView, err: JsValue): (AppView, bool) {
    (AfterError(v, Response, err), ReportError(Response, err).Raised?)
  }

  /** The STAT effect: echo, then the counts or the error. */
  function StatStep(s: MailView, echo: string, stat: Result<(nat, nat, string), JsValue>): (MailView, bool) {
    var a := Echo(s.app, echo);
    match stat
    case Ok((count, size, msg)) => (s.(app := Append(a, ConsoleMsg(Response, Info, StatText(count, size, msg)))), false)
    case Err(e) => var (b, thrown) := Catch(a, e); (s.(app := b), thrown)
  }

  /** The LIST effect: echo, then the listing (replacing the mail list) or the
      error; `fetching` is cleared afterwards unless `logError` threw. */
  function ListStep(s: MailView, echo: string, list: Result<(seq<(nat, nat)>, string), JsValue>): (MailView, bool) {
    var a := Echo(s.app, echo);
    match list
    case Ok((ls, msg)) =>
      (s.(app := Append(a, ConsoleMsg(Response, Info, ListingText(msg, ls))), mailInfos := Infos(ls), fetching := false), false)
    case Err(e) =>
      var (b, thrown) := Catch(a, e);
      (s.(app := b, fetching := s.fetching && thrown), thrown)
  }

  /** A click on a mail: echo, then the mail (shown and logged) or the error. */
  function RetrStep(s: MailView, echo: string, retr: Result<(MailData, string), JsValue>): (MailView, bool) {
    var a := Echo(s.app, echo);
    match retr
    case Ok((mail, msg)) =>
      (s.(app := Append(a, ConsoleMsg(Response, Info, RetrText(msg, mail.raw))), mailData := Some(mail)), false)
    case Err(e) => var (b, thrown) := Catch(a, e); (s.(app := b), thrown)
  }

  /** The logout button: echo, then the answer and the logout, or the error. */
  function LogoutStep(s: MailView, echo: string, quit: Result<string, JsValue>): (MailView, bool) {
    var a := Echo(s.app, echo);
    match quit
    case Ok(msg) => (s.(app := Append(a, ConsoleMsg(Response, Info, msg)).(login := false)), false)
    case Err(e) => var (b, thrown) := Catch(a, e); (s.(app := b), thrown)
  }

  /** STAT: the echo comes first on both paths, followed by the counts line on
      success or the error entry on failure; the mail list, the shown mail and
      the spinner are untouched, and only a `null`/`undefined` rejection throws. */
  lemma StatStepEffect(s: MailView, echo: string, stat: Result<(nat, nat, string), JsValue>)
    ensures var (t, thrown) := StatStep(s, echo, stat);
      && (stat.Ok? ==> t.app.log == s.app.log + [ConsoleMsg(Command, Info, echo),
                                                  ConsoleMsg(Response, Info, StatText(stat.value.0, stat.value.1, stat.value.2))])
      && (stat.Err? ==> t.app.log == s.app.log + [ConsoleMsg(Command, Info, echo)] + Entries(ReportError(Response, stat.error)))
      && t.mailInfos == s.mailInfos && t.mailData == s.mailData && t.fetching == s.fetching
      && (thrown <==> stat == Err(JsNullish))
  {
    if stat.Err? {
      AfterErrorEffect(Echo(s.app, echo), Response, stat.error);
      SilentExactlyWithoutText(Response, stat.error);
    }
  }

  /** Listing: on success the mail list is replaced by the listings and the
      transcript gains the echo then the response; on failure the mail list is
      kept and the echo comes before the error entry. `fetching` ends false
      except after a `null`/`undefined` rejection. */
  lemma ListStepEffect(s: MailView, echo: string, list: Result<(seq<(nat, nat)>, string), JsValue>)
    ensures var (t, thrown) := ListStep(s, echo, list);
      && (list.Ok? ==> t.mailInfos == Infos(list.value.0)
                       && t.app.log == s.app.log + [ConsoleMsg(Command, Info, echo),
                                                     ConsoleMsg(Response, Info, ListingText(list.value.1, list.value.0))])
      && (list.Err? ==> t.mailInfos == s.mailInfos
                        && t.app.log == s.app.log + [ConsoleMsg(Command, Info, echo)] + Entries(ReportError(Response, list.error)))
      && (t.fetching <==> s.fetching && list == Err(JsNullish))
      && (thrown <==> list == Err(JsNullish))
      && t.mailData == s.mailData
  {
    if list.Err? {
      AfterErrorEffect(Echo(s.app, echo), Response, list.error);
      SilentExactlyWithoutText(Response, list.error);
    }
  }

  /** A mail click shows the new mail only on success; otherwise the one shown
      before stays. */
  lemma RetrStepEffect(s: MailView, echo: string, retr: Result<(MailData, string), JsValue>)
    ensures var (t, thrown) := RetrStep(s, echo, retr);
      && t.mailData == (if retr.Ok? then Some(retr.value.0) else s.mailData)
      && t.mailInfos == s.mailInfos && t.fetching == s.fetching
      && (retr.Ok? ==> t.app.log == s.app.log + [ConsoleMsg(Command, Info, echo),
                                                  ConsoleMsg(Response, Info, RetrText(retr.value.1, retr.value.0.raw))])
      && (retr.Err? ==> t.app.log == s.app.log + [ConsoleMsg(Command, Info, echo)] + Entries(ReportError(Response, retr.error)))
      && (thrown <==> retr == Err(JsNullish))
  {
    if retr.Err? {
      AfterErrorEffect(Echo(s.app, echo), Response, retr.error);
      SilentExactlyWithoutText(Response, retr.error);
    }
  }

  /** The logout button logs the QUIT echo, then the server's text or the error
      entry; it logs out after a successful QUIT, and after a failure only when
      the error is the lost-connection sentinel. Only a `null`/`undefined`
      rejection throws. */
  lemma LogoutStepEffect(s: MailView, echo: string, quit: Result<string, JsValue>)
    ensures var (t, thrown) := LogoutStep(s, echo, quit);
      && (quit.Ok? ==> t.app.log == s.app.log + [ConsoleMsg(Command, Info, echo), ConsoleMsg(Response, Info, quit.value)])
      && (quit.Err? ==> t.app.log == s.app.log + [ConsoleMsg(Command, Info, echo)] + Entries(ReportError(Response, quit.error)))
      && (thrown <==> quit == Err(JsNullish))
      && (t.app.login <==> s.app.login && quit.Err? && quit.error != JsObject(StringMsg(Sentinel)))
      && t.app.addr == s.app.addr && t.app.username == s.app.username
      && t.mailData == s.mailData && t.mailInfos == s.mailInfos && t.fetching == s.fetching
  {
    if quit.Err? {
      AfterErrorEffect(Echo(s.app, echo), Response, quit.error);
      LogoutExactlyOnSentinel(Response, quit.error);
      SilentExactlyWithoutText(Response, quit.error);
    }
  }

  // ---------------------------------------------------------------------------
  // MailCard's partition of the parts

  function Htmls(ps: seq<MailPart>): seq<string> {
    if ps == [] then []
    else Htmls(ps[..|ps| - 1]) + (if ps[|ps| - 1].Html? then [ps[|ps| - 1].html] else [])
  }

  function Texts(ps: seq<MailPart>): seq<string> {
    if ps == [] then []
    else Texts(ps[..|ps| - 1]) + (if ps[|ps| - 1].Text? then [ps[|ps| - 1].text] else [])
  }

  function Bins(ps: seq<MailPart>): seq<Bytes> {
    if ps == [] then []
    else Bins(ps[..|ps| - 1]) + (if ps[|ps| - 1].Bin? then [ps[|ps| - 1].data] else [])
  }

  /** The tabs of `MailCard`: each part lands in the list of its kind, in the
      order the parts come. */
  method Partition(parts: seq<MailPart>) returns (htmls: seq<string>, texts: seq<string>, bins: seq<Bytes>)
    ensures htmls == Htmls(parts) && texts == Texts(parts) && bins == Bins(parts)
  {
    htmls, texts, bins := [], [], [];
    for i := 0 to |parts|
      invariant htmls == Htmls(parts[..i]) && texts == Texts(parts[..i]) && bins == Bins(parts[..i])
    {
      assert parts[..i + 1][..i] == parts[..i];
      var part := parts[i];
      if part.Html? {
        htmls := htmls + [part.html];
      } else if part.Text? {
        texts := texts + [part.text];
      } else if part.Bin? {
        bins := bins + [part.data];
      }
    }
    assert parts[..|parts|] == parts;
  }

  /** No part is lost or counted twice. */
  lemma {:induction false} PartitionSizes(ps: seq<MailPart>)
    ensures |Htmls(ps)| + |Texts(ps)| + |Bins(ps)| == |ps|
  {
    if ps != [] {
      PartitionSizes(ps[..|ps| - 1]);
    }
  }

  /** Sorting a concatenation is sorting each piece: the relative order of the
      parts of one kind is kept. */
  lemma {:induction false} PartitionConcat(a: seq<MailPart>, b: seq<MailPart>)
    ensures Htmls(a + b) == Htmls(a) + Htmls(b)
    ensures Texts(a + b) == Texts(a) + Texts(b)
    ensures Bins(a + b) == Bins(a) + Bins(b)
    decreases |b|
  {
    if b == [] {
      assert a + b == a;
    } else {
      var b' := b[..|b| - 1];
      assert (a + b)[..|a + b| - 1] == a + b';
      PartitionConcat(a, b');
    }
  }

  // ---------------------------------------------------------------------------
  // The component

  class MailList {
    var mailData: Option<MailData>
    var fetching: bool
    var mailInfos: seq<MailInfo>
    const console: Console

    function Snapshot(): MailView
      reads this, console, console.session, console.snack
    {
      MailView(console.View(), mailData, fetching, mailInfos)
    }

    /** The page opens with no mail shown, an empty list, and the spinner on. */
    constructor (console: Console)
      ensures mailData.None? && fetching && mailInfos == [] && this.console == console
    {
      mailData, fetching, mailInfos := None, true, [];
      this.console := console;
    }

    /** The STAT effect. */
    method StatEffect(echo: string, stat: Result<(nat, nat, string), JsValue>) returns (thrown: bool)
      modifies console, console.session, console.snack
      ensures (Snapshot(), thrown) == StatStep(old(Snapshot()), echo, stat)
    {
      if stat.Ok? {
        var (count, size, msg) := stat.value;
        console.LogInfo(Command, echo);
        console.LogInfo(Response, StatText(count, size, msg));
        return false;
      }
      console.LogInfo(Command, echo);
      thrown := console.LogError(Response, stat.error);
    }

    /** The LIST effect. */
    method ListEffect(echo: string, list: Result<(seq<(nat, nat)>, string), JsValue>) returns (thrown: bool)
      modifies this, console, console.session, console.snack
      ensures (Snapshot(), thrown) == ListStep(old(Snapshot()), echo, list)
    {
      if list.Ok? {
        var (ls, msg) := list.value;
        console.LogInfo(Command, echo);
        console.LogInfo(Response, ListingText(msg, ls));
        mailInfos := Infos(ls);
      } else {
        console.LogInfo(Command, echo);
        thrown := console.LogError(Response, list.error);
        if thrown {
          return;
        }
      }
      fetching := false;
      thrown := false;
    }

    /** A click on a mail of the list. */
    method RetrClick(echo: string, retr: Result<(MailData, string), JsValue>) returns (thrown: bool)
      modifies this, console, console.session, console.snack
      ensures (Snapshot(), thrown) == RetrStep(old(Snapshot()), echo, retr)
    {
      console.LogInfo(Command, echo);
      if retr.Ok? {
        var (mail, msg) := retr.value;
        mailData := Some(mail);
        console.LogInfo(Response, RetrText(msg, mail.raw));
        return false;
      }
      thrown := console.LogError(Response, retr.error);
    }

    /** The logout button. */
    method LogoutClick(echo: string, quit: Result<string, JsValue>) returns (thrown: bool)
      modifies console, console.session, console.snack
      ensures (Snapshot(), thrown) == LogoutStep(old(Snapshot()), echo, quit)
    {
      console.LogInfo(Command, echo);
      if quit.Ok? {
        console.LogInfo(Response, quit.value);
        console.session.login := false;
        return false;
      }
      thrown := console.LogError(Response, quit.error);
    }
  }
}
