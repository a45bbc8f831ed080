/** The chat session controller of `src/chat_interface.rs`: the key-event state
    machine of `do_input`, the message log, and the scroll clamp and line
    layout that `draw` computes before it paints. Terminal set-up, painting
    and the blocking event read are not part of this model. */
module Chat {
  import Decimal

  /** Rust's `u16`: the type of the scroll offset. */
  newtype U16 = x: int | 0 <= x < 0x1_0000

  const U16_MAX: U16 := 0xFFFF

  datatype InputMode = Normal | Editing

  /** The key codes the controller tells apart; every other crossterm key code
      (arrows other than Up and Down, Tab, function keys, ...) is `Other`. */
  datatype Key = Char(c: char) | Up | Down | Enter | Backspace | Esc | Other

  /** A terminal event: a key event (`Event::Key`) with its key code, or
      `NotAKey`, which stands for every other event variant (mouse, resize,
      focus, paste, ...). */
  datatype Event = KeyEvent(code: Key) | NotAKey

  /** The state a `ChatInterface` owns, as a value (the terminal handle aside). */
  datatype Session = Session(
    input: string,
    mode: InputMode,
    history: seq<string>,
    quit: bool,
    scrollY: U16)

  /** The state `ChatInterface::new` starts from. */
  const Initial: Session := Session("", Normal, [], false, 0)

  /** What one key press does to the session. At most one part of the
      session changes: the mode, the quit flag, the offset (by one), or the
      input (a commit also appends the taken input to the history). */
  function Step(s: Session, k: Key): (t: Session)
    ensures t.mode == s.mode || t == s.(mode := t.mode)
    ensures t.quit == s.quit || t == s.(quit := true)
    ensures t.scrollY == s.scrollY || (t == s.(scrollY := t.scrollY) && -1 <= t.scrollY as int - s.scrollY as int <= 1)
    ensures t.history == s.history || (t == s.(input := "", history := s.history + [s.input]) && s.input != "")
    ensures t.input == s.input || t.history != s.history || t == s.(input := t.input)
  {
    match s.mode
    case Normal =>
      (match k
       case Char('e') => s.(mode := Editing)
       case Char('q') => s.(quit := true)
       case Up => if s.scrollY > 0 then s.(scrollY := s.scrollY - 1) else s
       case Down => if s.scrollY < U16_MAX then s.(scrollY := s.scrollY + 1) else s
       case _ => s)
    case Editing =>
      (match k
       case Enter =>
         // an empty input is not sent
         if |s.input| > 0 then s.(input := "", history := s.history + [s.input]) else s
       case Char(c) => s.(input := s.input + [c])
       case Backspace => if |s.input| > 0 then s.(input := s.input[..|s.input| - 1]) else s
       case Esc => s.(mode := Normal)
       case _ => s)
  }

  /** What one terminal event does: events that are not key presses are ignored. */
  function Apply(s: Session, e: Event): Session {
    match e
    case KeyEvent(k) => Step(s, k)
    case _ => s
  }

  /** The session after the key presses `keys`, in order, with no `draw`
      between them. */
  function Run(s: Session, keys: seq<Key>): Session
    decreases |keys|
  {
    if keys == [] then s else Run(Step(s, keys[0]), keys[1..])
  }

  // ---------------------------------------------------------------------------
  // The render model that `draw` hands to the terminal.

  /** The tooltip of each mode, its spans run together. */
  function Tooltip(mode: InputMode): string {
    match mode
    case Normal => "Press q to exit, e to start editing, UP/DOWN to scroll."
    case Editing => "Press Esc to stop editing, Enter to record the message"
  }

  /** The display line of history entry `i`. */
  function Line(i: nat, message: string): string {
    Decimal.Show(i) + ": " + message + "\n"
  }

  /** The synthetic line that reports how many messages are scrolled past. */
  function Marker(c: U16): string {
    "..." + Decimal.Show(c as nat) + " messages above\n"
  }

  /** The display lines of `h`, numbered from `first` (the `enumerate().map`). */
  function LinesFrom(h: seq<string>, first: nat): (r: seq<string>)
    ensures |r| == |h|
    decreases |h|
  {
    if h == [] then [] else [Line(first, h[0])] + LinesFrom(h[1..], first + 1)
  }

  lemma {:induction false} LinesFromAt(h: seq<string>, first: nat, i: nat)
    requires i < |h|
    ensures LinesFrom(h, first)[i] == Line(first + i, h[i])
    decreases |h|
  {
    if i > 0 {
      LinesFromAt(h[1..], first + 1, i - 1);
    }
  }

  /** One display line per history entry, each carrying its zero-based index. */
  function MessageLines(history: seq<string>): (r: seq<string>)
    ensures |r| == |history|
    ensures forall i :: 0 <= i < |history| ==> r[i] == Line(i, history[i])
  {
    var r := LinesFrom(history, 0);
    assert forall i :: 0 <= i < |history| ==> r[i] == Line(i, history[i]) by {
      forall i | 0 <= i < |history|
        ensures r[i] == Line(i, history[i])
      {
        LinesFromAt(history, 0, i);
      }
    }
    r
  }

  /** The history length as a `u16`, or 0 when it does not fit (`u16::try_from(..).ok()`). */
  function NumMessages(count: nat): U16 {
    if count <= U16_MAX as nat then count as U16 else 0
  }

  /** `std::cmp::min` on `u16`. */
  function Min(a: U16, b: U16): (r: U16)
    ensures r <= a && r <= b && (r == a || r == b)
  {
    if a <= b then a else b
  }

  /** Whether a synthetic line is shown for clamped offset `c` of `n` messages. */
  predicate MarkerShown(c: U16, n: U16) {
    0 < c || n == 0
  }

  /** Where the synthetic line goes among `count` display lines. */
  function MarkerIndex(c: U16, n: U16, count: nat): nat {
    if 0 < c < n then c as nat else count
  }

  /** Where history line `i` ends up once the synthetic line is in place. */
  function LineIndex(i: nat, c: U16, n: U16): nat {
    if 0 < c < n && c as nat <= i then i + 1 else i
  }

  /** What `draw` presents: the tooltip, the input line, whether the cursor is
      shown, the chat history lines and the vertical scroll of that paragraph. */
  datatype RenderModel = RenderModel(
    tooltip: string,
    input: string,
    cursorShown: bool,
    lines: seq<string>,
    scroll: U16)

  /** The render model of `s`; its `scroll` is also the offset `draw` writes back. */
  function Render(s: Session): (m: RenderModel)
    ensures m.scroll == Min(s.scrollY, NumMessages(|s.history|))
    ensures m.scroll as int <= |s.history|
    ensures |s.history| <= U16_MAX as int ==> m.scroll as int == if s.scrollY as int <= |s.history| then s.scrollY as int else |s.history|
    ensures |s.history| > U16_MAX as int ==> m.scroll == 0
    ensures m.tooltip == Tooltip(s.mode) && m.input == s.input
    ensures m.cursorShown <==> s.mode == Editing
    ensures |m.lines| == |s.history| + (if MarkerShown(m.scroll, NumMessages(|s.history|)) then 1 else 0)
    ensures MarkerShown(m.scroll, NumMessages(|s.history|)) ==>
      m.lines[MarkerIndex(m.scroll, NumMessages(|s.history|), |s.history|)] == Marker(m.scroll)
    ensures forall i :: 0 <= i < |s.history| ==>
      m.lines[LineIndex(i, m.scroll, NumMessages(|s.history|))] == Line(i, s.history[i])
  {
    var lines := MessageLines(s.history);
    var n := NumMessages(|lines|);
    var c := Min(s.scrollY, n);
    var shown :=
      if 0 < c < n then lines[..c] + [Marker(c)] + lines[c..]
      else if c >= n then lines + [Marker(c)]
      else lines;
    RenderModel(Tooltip(s.mode), s.input, s.mode == Editing, shown, c)
  }

  /** One round of the program's main loop: `draw`, whose clamp writes the
      offset back, then `do_input` with key `k`. */
  function LoopStep(s: Session, k: Key): Session {
    Step(s.(scrollY := Render(s).scroll), k)
  }

  /** The session after the main loop has handled the key presses `keys`;
      the loop ends after the first key that leaves a quit request. */
  function Loop(s: Session, keys: seq<Key>): Session
    decreases |keys|
  {
    if keys == [] then s
    else
      var t := LoopStep(s, keys[0]);
      if t.quit then t else Loop(t, keys[1..])
  }

  // ---------------------------------------------------------------------------
  // The controller object.

  class ChatInterface {
    var input: string
    var inputMode: InputMode
    var chatHistory: seq<string>
    var quitFlag: bool
    var scrollY: U16

    /** The fields as a session value. */
    function State(): Session
      reads this
    {
      Session(input, inputMode, chatHistory, quitFlag, scrollY)
    }

    /** The field initialisation of `ChatInterface::new`. */
    constructor ()
      ensures State() == Initial
    {
      input := "";
      inputMode := Normal;
      chatHistory := [];
      quitFlag := false;
      scrollY := 0;
    }

    /** Handles one terminal event (the one `event::read` would return). */
    method DoInput(event: Event)
      modifies this
      ensures State() == Apply(old(State()), event)
    {
      if event.KeyEvent? {
        var key := event.code;
        match inputMode {
          case Normal =>
            match key {
              case Char('e') =>
                inputMode := Editing;
              case Char('q') =>
                quitFlag := true;
              case Up =>
                if scrollY > 0 {
                  scrollY := scrollY - 1;
                }
              case Down =>
                if scrollY < U16_MAX {
                  scrollY := scrollY + 1;
                }
              case _ =>
            }
          case Editing =>
            match key {
              case Enter =>
                if |input| > 0 {
                  var taken := input;
                  input := "";
                  HandleInput(taken);
                }
              case Char(c) =>
                input := input + [c];
              case Backspace =>
                if |input| > 0 {
                  input := input[..|input| - 1];
                }
              case Esc =>
                inputMode := Normal;
              case _ =>
            }
        }
      }
    }

    /** Whether a quit was requested. */
    function CheckQuit(): (q: bool)
      reads this
      ensures q <==> State().quit
    {
      quitFlag
    }

    /** Clamps the scroll offset and computes what `draw` paints. */
    method Draw() returns (frame: RenderModel)
      modifies this`scrollY
      ensures frame == Render(old(State()))
      ensures State() == old(State()).(scrollY := frame.scroll)
    {
      var tooltip := Tooltip(inputMode);
      var messageSpans := MessageLines(chatHistory);
      var numMessages := NumMessages(|messageSpans|);
      scrollY := Min(scrollY, numMessages);
      if scrollY > 0 && scrollY < numMessages {
        messageSpans := messageSpans[..scrollY] + [Marker(scrollY)] + messageSpans[scrollY..];
      } else if scrollY >= numMessages {
        messageSpans := messageSpans + [Marker(scrollY)];
      }
      frame := RenderModel(tooltip, input, inputMode == Editing, messageSpans, scrollY);
    }

    /** Records a committed input line. */
    method HandleInput(line: string)
      modifies this`chatHistory
      ensures State() == old(State()).(history := old(chatHistory) + [line])
    {
      chatHistory := chatHistory + [line];
    }

    /** Appends a message from outside the keyboard, in either mode. */
    method PushMessage(message: string)
      modifies this`chatHistory
      ensures State() == old(State()).(history := old(chatHistory) + [message])
    {
      chatHistory := chatHistory + [message];
    }
  }
}
