/** The snackbar: a single notification slot that `showMessage` overwrites and
    `close` hides. */
module SnackState {
  import opened Wrappers

  /** The alert severities the snackbar can show. */
  datatype Severity = Success | Info | Warning | Error

  /** The three state cells `open`, `msg` and `severity`. */
  datatype SnackView = SnackView(open: bool, msg: string, severity: Severity)

  /** The state before anything is shown. */
  const Initial := SnackView(false, "", Info)

  /** `showMessage(msg, severity)`; a missing severity means `"info"`. */
  function Show(v: SnackView, msg: string, severity: Option<Severity>): (w: SnackView)
    ensures w.open && w.msg == msg
    ensures w.severity == (if severity.Some? then severity.value else Info)
  {
    SnackView(true, msg, if severity.Some? then severity.value else Info)
  }

  /** `close`: only `open` changes. */
  function Close(v: SnackView): (w: SnackView)
    ensures !w.open && w.msg == v.msg && w.severity == v.severity
  {
    v.(open := false)
  }

  /** There is one slot: what was shown before leaves no trace. */
  lemma LastShowWins(v: SnackView, m1: string, s1: Option<Severity>, m2: string, s2: Option<Severity>)
    ensures Show(Show(v, m1, s1), m2, s2) == Show(v, m2, s2)
    ensures Show(Close(v), m2, s2) == Show(v, m2, s2)
  {
  }

  /** Closing twice is closing once, and closing after showing keeps the message. */
  lemma CloseIdempotent(v: SnackView, m: string, s: Option<Severity>)
    ensures Close(Close(v)) == Close(v)
    ensures Close(Show(v, m, s)).msg == m
  {
  }

  /** The snackbar's state container. */
  class Snack {
    var open: bool
    var msg: string
    var severity: Severity

    function View(): SnackView
      reads this
    {
      SnackView(open, msg, severity)
    }

    constructor ()
      ensures View() == Initial
    {
      open, msg, severity := false, "", Info;
    }

    method ShowMessage(m: string, s: Option<Severity>)
      modifies this
      ensures View() == Show(old(View()), m, s)
    {
      msg := m;
      severity := if s.Some? then s.value else Info;
      open := true;
    }

    method CloseMessage()
      modifies this
      ensures View() == Close(old(View()))
    {
      open := false;
    }
  }
}
