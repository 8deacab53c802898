/** The transcript shown in the console panel, and the login flag it can clear:
    `appendMsg`, `logInfo` and `logError`. */
module ConsoleState {
  import opened Wrappers
  import opened ErrorCheck
  import SnackState

  datatype MsgType = Network | Command | Response | Other

  datatype Level = Info | Warning | Error

  /** One transcript entry. */
  datatype ConsoleMsg = ConsoleMsg(kind: MsgType, level: Level, msg: string)

  /** A `Partial<ConsoleMsg>`: every field may be missing. */
  datatype PartialMsg = PartialMsg(kind: Option<MsgType>, level: Option<Level>, msg: Option<string>)

  /** The entry `appendMsg` stores: the given fields over the defaults
      `{ type: "other", level: "info", msg: "" }`. */
  function Complete(p: PartialMsg): (m: ConsoleMsg)
    ensures p.kind.Some? ==> m.kind == p.kind.value
    ensures p.kind.None? ==> m.kind == Other
    ensures p.level.Some? ==> m.level == p.level.value
    ensures p.level.None? ==> m.level == Info
    ensures p.msg.Some? ==> m.msg == p.msg.value
    ensures p.msg.None? ==> m.msg == ""
  {
    ConsoleMsg(
      if p.kind.Some? then p.kind.value else Other,
      if p.level.Some? then p.level.value else Info,
      if p.msg.Some? then p.msg.value else "")
  }

  /** A partial message with every field present. */
  function Full(m: ConsoleMsg): PartialMsg {
    PartialMsg(Some(m.kind), Some(m.level), Some(m.msg))
  }

  /** Given every field, the defaults play no part. */
  lemma CompleteFull(m: ConsoleMsg)
    ensures Complete(Full(m)) == m
  {
  }

  /** The error text the front end takes to mean that the connection was lost. */
  const Sentinel: string := "connection closed by remote"

  /** "The server connection was lost, please log in again." */
  const ReloginNotice: string := "服务器连接已断开，请重新登录"

  /** What `logError` does with an error. */
  datatype ErrorReport =
    | Logged(entry: ConsoleMsg)     // one error entry appended
    | LoggedOut(entry: ConsoleMsg)  // one entry appended, login cleared, notice shown
    | Ignored                       // only a diagnostic
    | Raised                        // `checkError` threw

  /** `logError(t, err)`: a string is logged as it is; anything else goes
      through `checkError`, and the sentinel message forces a logout. */
  function ReportError(t: MsgType, err: JsValue): ErrorReport {
    if err.JsString? then Logged(ConsoleMsg(t, Error, err.s))
    else match CheckError(err)
      case Handled(m) =>
        if m == Sentinel then LoggedOut(ConsoleMsg(Network, Error, m))
        else Logged(ConsoleMsg(t, Error, m))
      case Diagnostic => Ignored
      case Thrown => Raised
  }

  /** The entries a report appends. */
  function Entries(r: ErrorReport): (es: seq<ConsoleMsg>)
    ensures |es| <= 1
    ensures |es| == 1 <==> r.Logged? || r.LoggedOut?
  {
    match r
    case Logged(e) => [e]
    case LoggedOut(e) => [e]
    case _ => []
  }

  /** A string error is logged verbatim under the given type, even when it is the
      sentinel text: that check is made only for structured errors. */
  lemma StringErrorVerbatim(t: MsgType, s: string)
    ensures ReportError(t, JsString(s)) == Logged(ConsoleMsg(t, Error, s))
  {
  }

  /** The logout happens exactly for a structured error whose `msg` is the
      sentinel, and its entry is a network error whatever type was passed. */
  lemma LogoutExactlyOnSentinel(t: MsgType, err: JsValue)
    ensures ReportError(t, err).LoggedOut? <==> err == JsObject(StringMsg(Sentinel))
    ensures ReportError(t, err).LoggedOut? ==> ReportError(t, err).entry == ConsoleMsg(Network, Error, Sentinel)
  {
  }

  /** Every other error with a text is logged once, as an error of the given type
      carrying that text. */
  lemma OtherErrorsKeepType(t: MsgType, err: JsValue, text: string)
    requires err == JsString(text) || (err == JsObject(StringMsg(text)) && text != Sentinel)
    ensures Entries(ReportError(t, err)) == [ConsoleMsg(t, Error, text)]
  {
  }

  /** Nothing is logged exactly when the error carries no text. */
  lemma SilentExactlyWithoutText(t: MsgType, err: JsValue)
    ensures Entries(ReportError(t, err)) == [] <==> err == JsNullish || err == JsObject(NonStringMsg)
    ensures ReportError(t, err).Raised? <==> err == JsNullish
  {
  }

  /** Everything the console container and the login container hold, with the
      snackbar they notify. */
  datatype AppView = AppView(
    log: seq<ConsoleMsg>, login: bool, addr: string, username: string, snack: SnackState.SnackView)

  /** The view after `logInfo`/`appendMsg` of entry `e`. */
  function Append(v: AppView, e: ConsoleMsg): (w: AppView)
    ensures w.log == v.log + [e] && w.(log := v.log) == v
  {
    v.(log := v.log + [e])
  }

  /** The view after `logError(t, err)` (unchanged when `checkError` throws). */
  function AfterError(v: AppView, t: MsgType, err: JsValue): AppView {
    var r := ReportError(t, err);
    if r.LoggedOut? then
      v.(log := v.log + [r.entry], login := false,
         snack := SnackState.Show(v.snack, ReloginNotice, Some(SnackState.Error)))
    else v.(log := v.log + Entries(r))
  }

  /** `logError` appends what the report says, clears the login flag only on the
      sentinel, and never touches the address or the user name. */
  lemma AfterErrorEffect(v: AppView, t: MsgType, err: JsValue)
    ensures AfterError(v, t, err).log == v.log + Entries(ReportError(t, err))
    ensures AfterError(v, t, err).login == (v.login && !ReportError(t, err).LoggedOut?)
    ensures AfterError(v, t, err).addr == v.addr && AfterError(v, t, err).username == v.username
    ensures !ReportError(t, err).LoggedOut? ==> AfterError(v, t, err).snack == v.snack
  {
  }

  /** The login container (`LoginState`): whether a session is open, and for
      which server and user. */
  class LoginState {
    var login: bool
    var addr: string
    var username: string

    constructor ()
      ensures !login && addr == "" && username == ""
    {
      login, addr, username := false, "", "";
    }
  }

  /** The console container: the transcript, plus the login flag and the
      snackbar it reaches into. */
  class Console {
    var consoleMsgs: seq<ConsoleMsg>
    const session: LoginState
    const snack: SnackState.Snack

    function View(): AppView
      reads this, session, snack
    {
      AppView(consoleMsgs, session.login, session.addr, session.username, snack.View())
    }

    constructor (session: LoginState, snack: SnackState.Snack)
      ensures consoleMsgs == [] && this.session == session && this.snack == snack
    {
      consoleMsgs := [];
      this.session := session;
      this.snack := snack;
    }

    /** `appendMsg`: exactly one entry more, every earlier one kept in order. */
    method AppendMsg(p: PartialMsg)
      modifies this
      ensures consoleMsgs == old(consoleMsgs) + [Complete(p)]
      ensures View() == Append(old(View()), Complete(p))
    {
      consoleMsgs := consoleMsgs + [Complete(p)];
    }

    /** `logInfo(t, m)`. */
    method LogInfo(t: MsgType, m: string)
      modifies this
      ensures consoleMsgs == old(consoleMsgs) + [ConsoleMsg(t, Info, m)]
      ensures View() == Append(old(View()), ConsoleMsg(t, Info, m))
    {
      AppendMsg(PartialMsg(Some(t), Some(Info), Some(m)));
    }

    /** `logError(t, err)`; `thrown` tells that `checkError` threw, which the
        caller sees as an exception. */
    method LogError(t: MsgType, err: JsValue) returns (thrown: bool)
      modifies this, session, snack
      ensures thrown <==> ReportError(t, err).Raised?
      ensures View() == AfterError(old(View()), t, err)
    {
      if err.JsString? {
        AppendMsg(PartialMsg(Some(t), Some(Error), Some(err.s)));
        return false;
      }
      var outcome := CheckError(err);
      match outcome
      case Thrown =>
        thrown := true;
      case Diagnostic =>
        thrown := false;
      case Handled(m) =>
        if m == Sentinel {
          AppendMsg(PartialMsg(Some(Network), Some(Error), Some(m)));
          session.login := false;
          snack.ShowMessage(ReloginNotice, Some(SnackState.Error));
        } else {
          AppendMsg(PartialMsg(Some(t), Some(Error), Some(m)));
        }
        thrown := false;
    }
  }
}
