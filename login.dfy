/** The login form's submit handler: connect, then USER, then PASS, stopping at
    the first failure; only when all three succeed is the session committed. */
module LoginPage {
  import opened Wrappers
  import opened ErrorCheck
  import opened ConsoleState

  /** What the form submits. */
  datatype LoginData = LoginData(addr: string, username: string, password: string, withTls: bool)

  /** The form fields an error message can be attached to. */
  datatype Field = AddrField | UsernameField | PasswordField

  /** The three network steps of a submit. */
  datatype Step = ConnectStep | UserStep | PassStep

  /** What the backend commands give during one submit: `connect`, the echo of
      `user_msg` (which cannot fail), `user` and `pass`. A command that is
      never reached is never invoked, so its entry plays no part. */
  datatype Replies = Replies(
    connect: Result<string, JsValue>, userEcho: string,
    user: Result<string, JsValue>, pass: Result<string, JsValue>)

  /** The field a step's error goes to. */
  function FieldOf(step: Step): Field {
    match step
    case ConnectStep => AddrField
    case UserStep => UsernameField
    case PassStep => PasswordField
  }

  /** The transcript type a step's error is logged under. */
  function ErrorKind(step: Step): MsgType {
    if step == ConnectStep then Network else Response
  }

  /** The first step that fails, if any. */
  function FailedStep(r: Replies): (k: Option<Step>)
    ensures k.None? <==> r.connect.Ok? && r.user.Ok? && r.pass.Ok?
  {
    if r.connect.Err? then Some(ConnectStep)
    else if r.user.Err? then Some(UserStep)
    else if r.pass.Err? then Some(PassStep)
    else None
  }

  /** The error the failed step rejected with. */
  function StepError(r: Replies, k: Step): JsValue
    requires FailedStep(r) == Some(k)
  {
    match k
    case ConnectStep => r.connect.error
    case UserStep => r.user.error
    case PassStep => r.pass.error
  }

  // ---------------------------------------------------------------------------
  // The transcript entries

  /** `n` asterisks. */
  function Stars(n: nat): (s: string)
    ensures |s| == n && forall i :: 0 <= i < n ==> s[i] == '*'
  {
    if n == 0 then "" else Stars(n - 1) + "*"
  }

  /** A string's `length` in JavaScript: its UTF-16 code units, two for a
      character beyond the Basic Multilingual Plane and one for any other. */
  function Utf16Length(s: string): nat
    decreases |s|
  {
    if s == [] then 0
    else Utf16Length(s[..|s| - 1]) + (if s[|s| - 1] as int >= 0x1_0000 then 2 else 1)
  }

  /** A string has at least as many code units as characters and at most twice
      as many, and exactly as many when every character is in the Basic
      Multilingual Plane. */
  lemma {:induction false} Utf16LengthBounds(s: string)
    ensures |s| <= Utf16Length(s) <= 2 * |s|
    ensures (forall i :: 0 <= i < |s| ==> s[i] as int < 0x1_0000) ==> Utf16Length(s) == |s|
    decreases |s|
  {
    if s != [] {
      var init := s[..|s| - 1];
      assert forall i :: 0 <= i < |init| ==> init[i] == s[i];
      Utf16LengthBounds(init);
    }
  }

  /** The PASS line as logged: one `*` per UTF-16 code unit of the password. */
  function Mask(password: string): string {
    "PASS " + Stars(Utf16Length(password))
  }

  /** The masked line tells nothing about the password but its length. */
  lemma MaskOnlyShowsLength(p1: string, p2: string)
    ensures Mask(p1) == Mask(p2) <==> Utf16Length(p1) == Utf16Length(p2)
  {
    if Mask(p1) == Mask(p2) {
      assert |Mask(p1)| == 5 + Utf16Length(p1);
    }
  }

  /** A character beyond the Basic Multilingual Plane is masked by two stars:
      "a😀" is logged as "PASS ***". */
  lemma MaskOfAstralCharacter()
    ensures Mask("a\U{1F600}") == "PASS ***"
  {
    assert "a\U{1F600}"[..1] == "a";
    assert Utf16Length("a") == 1;
  }

  /** " 成功连接": "<addr> connected successfully". */
  const ConnectedSuffix: string := " 成功连接"

  /** The entries the submit logs before step `k` runs (and, for `k == None`,
      all the entries of a successful submit). */
  function Progress(data: LoginData, r: Replies, k: Option<Step>): seq<ConsoleMsg>
    requires r.connect.Ok? || k == Some(ConnectStep)
    requires r.user.Ok? || k == Some(ConnectStep) || k == Some(UserStep)
    requires r.pass.Ok? || k != None
  {
    var connected := [ConsoleMsg(Network, Info, data.addr + ConnectedSuffix)];
    var userSent := [ConsoleMsg(Command, Info, r.userEcho)];
    match k
    case Some(ConnectStep) => []
    case Some(UserStep) => connected + userSent
    case Some(PassStep) =>
      connected + userSent + [ConsoleMsg(Response, Info, r.user.value), ConsoleMsg(Command, Info, Mask(data.password))]
    case None =>
      connected + userSent + [ConsoleMsg(Response, Info, r.user.value), ConsoleMsg(Command, Info, Mask(data.password)),
                              ConsoleMsg(Response, Info, r.pass.value)]
  }

  // ---------------------------------------------------------------------------
  // The submit as a function of the state

  /** The login page's state: the containers it uses and its field errors. */
  datatype Screen = Screen(app: AppView, errors: map<Field, string>)

  /** A `catch` block: `checkError` attaches the message to the step's field (or
      throws, and nothing more happens), then `logError` logs the error. */
  function Fail(s: Screen, k: Step, err: JsValue): (Screen, bool) {
    match CheckError(err)
    case Thrown => (s, true)
    case Diagnostic => (s.(app := AfterError(s.app, ErrorKind(k), err)), false)
    case Handled(m) => (Screen(AfterError(s.app, ErrorKind(k), err), s.errors[FieldOf(k) := m]), false)
  }

  /** The whole submit: the new state, and whether it ended in an exception. */
  function Submit(s: Screen, data: LoginData, r: Replies): (Screen, bool) {
    if r.connect.Err? then Fail(s, ConnectStep, r.connect.error)
    else SubmitUser(s.(app := Append(s.app, ConsoleMsg(Network, Info, data.addr + ConnectedSuffix))), data, r)
  }

  /** The submit from the USER step on. */
  function SubmitUser(s: Screen, data: LoginData, r: Replies): (Screen, bool) {
    var s1 := s.(app := Append(s.app, ConsoleMsg(Command, Info, r.userEcho)));
    if r.user.Err? then Fail(s1, UserStep, r.user.error)
    else SubmitPass(s1.(app := Append(s1.app, ConsoleMsg(Response, Info, r.user.value))), data, r)
  }

  /** The submit from the PASS step on. */
  function SubmitPass(s: Screen, data: LoginData, r: Replies): (Screen, bool) {
    var s1 := s.(app := Append(s.app, ConsoleMsg(Command, Info, Mask(data.password))));
    if r.pass.Err? then Fail(s1, PassStep, r.pass.error)
    else
      var s2 := s1.(app := Append(s1.app, ConsoleMsg(Response, Info, r.pass.value)));
      (s2.(app := s2.app.(addr := data.addr, username := data.username, login := true)), false)
  }

  /** On success the session is committed with the submitted address and user
      name, and the transcript gains exactly the five entries in order. */
  lemma SubmitSucceeds(s: Screen, data: LoginData, r: Replies)
    requires FailedStep(r).None?
    ensures var (t, thrown) := Submit(s, data, r);
      && !thrown
      && t.app.login && t.app.addr == data.addr && t.app.username == data.username
      && t.app.log == s.app.log + Progress(data, r, None)
      && t.app.snack == s.app.snack && t.errors == s.errors
  {
    var connected := [ConsoleMsg(Network, Info, data.addr + ConnectedSuffix)];
    var userSent := [ConsoleMsg(Command, Info, r.userEcho)];
    var rest := [ConsoleMsg(Response, Info, r.user.value), ConsoleMsg(Command, Info, Mask(data.password)),
                 ConsoleMsg(Response, Info, r.pass.value)];
    assert s.app.log + connected + userSent + [rest[0]] + [rest[1]] + [rest[2]] == s.app.log + (connected + userSent + rest);
  }

  /** A failure stops the submit at its step: no later step logs anything,
      address and user name are not written, the message (if `checkError` finds
      one) goes to that step's field, and `logError` reports the error. */
  lemma SubmitAborts(s: Screen, data: LoginData, r: Replies, k: Step)
    requires FailedStep(r) == Some(k)
    ensures var (t, thrown) := Submit(s, data, r);
      var err := StepError(r, k);
      var before := s.app.(log := s.app.log + Progress(data, r, Some(k)));
      && (thrown <==> err == JsNullish)
      && (thrown ==> t.app == before && t.errors == s.errors)
      && (!thrown ==> t.app == AfterError(before, ErrorKind(k), err))
      && t.errors == (if CheckError(err).Handled? then s.errors[FieldOf(k) := CheckError(err).msg] else s.errors)
  {
    var connected := [ConsoleMsg(Network, Info, data.addr + ConnectedSuffix)];
    var userSent := [ConsoleMsg(Command, Info, r.userEcho)];
    match k
    case ConnectStep =>
      assert s.app.log + Progress(data, r, Some(k)) == s.app.log;
    case UserStep =>
      assert s.app.log + connected + userSent == s.app.log + Progress(data, r, Some(k));
    case PassStep =>
      var rest := [ConsoleMsg(Response, Info, r.user.value), ConsoleMsg(Command, Info, Mask(data.password))];
      assert s.app.log + connected + userSent + [rest[0]] + [rest[1]] == s.app.log + Progress(data, r, Some(k));
  }

  /** Starting logged out, a submit logs in exactly when all three steps succeed. */
  lemma LoginExactlyOnSuccess(s: Screen, data: LoginData, r: Replies)
    requires !s.app.login
    ensures Submit(s, data, r).0.app.login <==> FailedStep(r).None?
  {
    if FailedStep(r).None? {
      SubmitSucceeds(s, data, r);
    } else {
      var k := FailedStep(r).value;
      SubmitAborts(s, data, r, k);
      var before := s.app.(log := s.app.log + Progress(data, r, Some(k)));
      AfterErrorEffect(before, ErrorKind(k), StepError(r, k));
    }
  }

  // ---------------------------------------------------------------------------
  // The component

  /** The login form, with the field errors `setError` attaches. */
  class LoginForm {
    var errors: map<Field, string>
    const console: Console

    function Snapshot(): Screen
      reads this, console, console.session, console.snack
    {
      Screen(console.View(), errors)
    }

    constructor (console: Console)
      ensures errors == map[] && this.console == console
    {
      errors := map[];
      this.console := console;
    }

    /** The `catch` block of step `k`. */
    method Catch(k: Step, err: JsValue) returns (thrown: bool)
      modifies this, console, console.session, console.snack
      ensures (Snapshot(), thrown) == Fail(old(Snapshot()), k, err)
    {
      var outcome := CheckError(err);
      if outcome.Thrown? {
        return true;
      }
      if outcome.Handled? {
        errors := errors[FieldOf(k) := outcome.msg];
      }
      thrown := console.LogError(ErrorKind(k), err);
    }

    /** The `onSubmit` handler. */
    method HandleSubmit(data: LoginData, r: Replies) returns (thrown: bool)
      modifies this, console, console.session, console.snack
      ensures (Snapshot(), thrown) == Submit(old(Snapshot()), data, r)
    {
      if r.connect.Err? {
        thrown := Catch(ConnectStep, r.connect.error);
        return;
      }
      console.LogInfo(Network, data.addr + ConnectedSuffix);
      thrown := SendUser(data, r);
    }

    /** The USER step and what follows it. */
    method SendUser(data: LoginData, r: Replies) returns (thrown: bool)
      modifies this, console, console.session, console.snack
      ensures (Snapshot(), thrown) == SubmitUser(old(Snapshot()), data, r)
    {
      console.LogInfo(Command, r.userEcho);
      if r.user.Err? {
        thrown := Catch(UserStep, r.user.error);
        return;
      }
      console.LogInfo(Response, r.user.value);
      thrown := SendPass(data, r);
    }

    /** The PASS step, then the commit. */
    method SendPass(data: LoginData, r: Replies) returns (thrown: bool)
      modifies this, console, console.session, console.snack
      ensures (Snapshot(), thrown) == SubmitPass(old(Snapshot()), data, r)
    {
      console.LogInfo(Command, Mask(data.password));
      if r.pass.Err? {
        thrown := Catch(PassStep, r.pass.error);
        return;
      }
      console.LogInfo(Response, r.pass.value);

      console.session.addr := data.addr;
      console.session.username := data.username;
      console.session.login := true;
      thrown := false;
    }
  }
}
