/** The console panel: how one transcript entry is drawn, and the panel's
    height, which the divider above it drags and collapses. */
module ConsolePanel {
  import opened ConsoleState

  // ---------------------------------------------------------------------------
  // Drawing one entry (`ConsoleMsg`)

  /** The looks an entry can take. */
  datatype Style = NetworkError | NetworkNote | CommandLine | ResponseLine | PlainLine

  /** An entry as drawn: its look, the highlighted prefix, and its text. */
  datatype Rendered = Rendered(style: Style, prefix: string, text: string)

  const ClientTag: string := "C: "
  const ServerTag: string := "S: "
  const ErrTag: string := "+ERR "
  const OkTag: string := "+OK "

  /** An entry as `ConsoleMsg` draws it: commands after "C: ", responses after
      "S: " and their indicator, network entries and plain entries unprefixed. */
  function Render(m: ConsoleMsg): (r: Rendered)
    ensures r.text == m.msg
    ensures m.kind == Network ==> r.prefix == "" && (r.style == NetworkError <==> m.level == Error)
    ensures m.kind == Command ==> r.style == CommandLine && r.prefix == "C: "
    ensures m.kind == Response ==> r.style == ResponseLine
    ensures m.kind == Other ==> r == Rendered(PlainLine, "", m.msg)
  {
    match m.kind
    case Network => Rendered(if m.level == Error then NetworkError else NetworkNote, "", m.msg)
    case Command => Rendered(CommandLine, ClientTag, m.msg)
    case Response => Rendered(ResponseLine, ServerTag + (if m.level == Error then ErrTag else OkTag), m.msg)
    case Other => Rendered(PlainLine, "", m.msg)
  }

  /** Whether the level of an entry of this type shows at all. */
  predicate LevelShows(kind: MsgType) {
    kind == Network || kind == Response
  }

  /** Two entries look the same exactly when they have the same type and text and,
      where the level shows, are both errors or both not: a warning looks like
      an info, and commands and plain entries show no level at all. */
  lemma RenderIdentifies(m1: ConsoleMsg, m2: ConsoleMsg)
    ensures Render(m1) == Render(m2) <==>
      m1.kind == m2.kind && m1.msg == m2.msg &&
      (LevelShows(m1.kind) ==> (m1.level == Error <==> m2.level == Error))
  {
  }

  /** A response is prefixed "S: +ERR " when it is an error and "S: +OK " otherwise. */
  lemma ResponsePrefix(m: ConsoleMsg)
    requires m.kind == Response
    ensures Render(m).prefix == if m.level == Error then "S: +ERR " else "S: +OK "
  {
  }

  // ---------------------------------------------------------------------------
  // The panel's geometry

  /** `height` and `close` of `Console`, `isDragging` and `position` of `Divider`. */
  datatype Panel = Panel(height: int, close: bool, dragging: bool, anchor: int)

  /** The events the panel reacts to; `Move` is a sample the throttle let through. */
  datatype Event = Down(y: int) | Move(y: int) | Up | Toggle

  /** The panel before any event. */
  function Initial(initialHeight: int): Panel {
    Panel(initialHeight, false, false, 0)
  }

  /** One event. The divider's mouse-down is live only while the panel is open
      (`expand` receives `close`); the move and up listeners are attached only
      while the panel is open and a drag is on. */
  function Step(p: Panel, e: Event): Panel {
    match e
    case Down(y) => if !p.close then p.(anchor := y, dragging := true) else p
    case Move(y) => if !p.close && p.dragging then p.(height := p.height + (p.anchor - y), anchor := y) else p
    case Up => if !p.close && p.dragging then p.(dragging := false) else p
    case Toggle => p.(close := !p.close)
  }

  function Run(p: Panel, es: seq<Event>): Panel
    decreases |es|
  {
    if es == [] then p else Run(Step(p, es[0]), es[1..])
  }

  /** The move samples at the given positions. */
  function Moves(ys: seq<int>): (es: seq<Event>)
    ensures |es| == |ys| && forall i :: 0 <= i < |ys| ==> es[i] == Move(ys[i])
  {
    if ys == [] then [] else [Move(ys[0])] + Moves(ys[1..])
  }

  /** Over a drag the height changes by the anchor minus the last sample, with no
      bound on the result, and the anchor ends at the last sample. Samples the
      throttle drops therefore do not change where the drag ends. */
  lemma {:induction false} DragSum(p: Panel, ys: seq<int>)
    requires !p.close && p.dragging && ys != []
    ensures Run(p, Moves(ys)) == p.(height := p.height + p.anchor - ys[|ys| - 1], anchor := ys[|ys| - 1])
    decreases |ys|
  {
    var q := Step(p, Move(ys[0]));
    assert Moves(ys)[1..] == Moves(ys[1..]);
    if |ys| > 1 {
      DragSum(q, ys[1..]);
    }
  }

  /** While the panel is closed, no move changes anything. */
  lemma {:induction false} ClosedIgnoresMoves(p: Panel, ys: seq<int>)
    requires p.close
    ensures Run(p, Moves(ys)) == p
    decreases |ys|
  {
    if ys != [] {
      assert Moves(ys)[1..] == Moves(ys[1..]);
      ClosedIgnoresMoves(p, ys[1..]);
    }
  }

  /** Toggling flips `close` and nothing else, so toggling twice restores the panel. */
  lemma ToggleTwice(p: Panel)
    ensures Step(p, Toggle).close != p.close && Step(p, Toggle).height == p.height
    ensures Step(Step(p, Toggle), Toggle) == p
  {
  }

  /** The height the transcript box is given, in px (a negative one is not clamped). */
  function RenderedHeight(p: Panel): int {
    if p.close then 0 else p.height
  }

  /** The padding of the transcript box, in px. */
  function RenderedPadding(p: Panel): int {
    if p.close then 0 else 10
  }

  /** Closing collapses the box to nothing; reopening shows it at the height and
      with the padding it had. */
  lemma ReopenKeepsHeight(p: Panel)
    requires !p.close
    ensures RenderedHeight(Step(p, Toggle)) == 0 && RenderedPadding(Step(p, Toggle)) == 0
    ensures RenderedHeight(Step(Step(p, Toggle), Toggle)) == RenderedHeight(p) == p.height
    ensures RenderedPadding(Step(Step(p, Toggle), Toggle)) == RenderedPadding(p) == 10
  {
  }

  /** The live panel state. */
  class Console {
    var height: int
    var close: bool
    var isDragging: bool
    var position: int

    function Snapshot(): Panel
      reads this
    {
      Panel(height, close, isDragging, position)
    }

    constructor (initialHeight: int)
      ensures Snapshot() == Initial(initialHeight)
    {
      height, close, isDragging, position := initialHeight, false, false, 0;
    }

    method OnMouseDown(pageY: int)
      modifies this
      ensures Snapshot() == Step(old(Snapshot()), Down(pageY))
    {
      if !close {
        position := pageY;
        isDragging := true;
      }
    }

    method OnMouseMove(pageY: int)
      modifies this
      ensures Snapshot() == Step(old(Snapshot()), Move(pageY))
    {
      if !close && isDragging {
        var deltaHeight := -(pageY - position);
        height := height + deltaHeight;
        position := pageY;
      }
    }

    method OnMouseUp()
      modifies this
      ensures Snapshot() == Step(old(Snapshot()), Up)
    {
      if !close && isDragging {
        isDragging := false;
      }
    }

    method OnToggle()
      modifies this
      ensures Snapshot() == Step(old(Snapshot()), Toggle)
    {
      close := !close;
    }
  }
}
