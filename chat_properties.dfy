/** Properties of the chat session controller: the key transitions one by
    one, what sequences of keys can and cannot do, and the layout rules of
    the render model. */
module ChatProperties {
  import Decimal
  import opened Chat

  // ---------------------------------------------------------------------------
  // Normal mode

  /** Up never goes below zero: it drops the offset by exactly one when it is
      positive and does nothing at zero; nothing else changes. */
  lemma NormalUp(s: Session)
    requires s.mode == Normal
    ensures Step(s, Up).scrollY as int == if s.scrollY > 0 then s.scrollY as int - 1 else 0
    ensures Step(s, Up) == s.(scrollY := Step(s, Up).scrollY)
  {
  }

  /** Down raises the offset by exactly one, except at 65535, where it stays. */
  lemma NormalDown(s: Session)
    requires s.mode == Normal
    ensures Step(s, Down).scrollY as int == if s.scrollY as int < 65535 then s.scrollY as int + 1 else 65535
    ensures Step(s, Down) == s.(scrollY := Step(s, Down).scrollY)
  {
  }

  /** 'e' switches to Editing and changes nothing else. */
  lemma NormalStartEditing(s: Session)
    requires s.mode == Normal
    ensures Step(s, Char('e')) == s.(mode := Editing)
  {
  }

  /** 'q' requests quitting and changes nothing else. */
  lemma NormalQuit(s: Session)
    requires s.mode == Normal
    ensures Step(s, Char('q')) == s.(quit := true)
  {
  }

  /** Every other key, printable characters included, is ignored in Normal mode. */
  lemma NormalOtherKeys(s: Session, k: Key)
    requires s.mode == Normal
    requires k != Char('e') && k != Char('q') && k != Up && k != Down
    ensures Step(s, k) == s
  {
  }

  // ---------------------------------------------------------------------------
  // Editing mode

  /** Enter commits a non-empty input as exactly one new entry, empties the
      input and stays in Editing; an empty input commits nothing. */
  lemma EditingEnter(s: Session)
    requires s.mode == Editing
    ensures s.input == "" ==> Step(s, Enter) == s
    ensures s.input != "" ==> Step(s, Enter) == s.(input := "", history := s.history + [s.input])
    ensures Step(s, Enter).mode == Editing
  {
  }

  /** A character is text in Editing mode, including 'q' and 'e'. */
  lemma EditingChar(s: Session, c: char)
    requires s.mode == Editing
    ensures Step(s, Char(c)) == s.(input := s.input + [c])
  {
  }

  /** Backspace removes the last character, or does nothing on an empty input. */
  lemma EditingBackspace(s: Session)
    requires s.mode == Editing
    ensures s.input == "" ==> Step(s, Backspace) == s
    ensures s.input != "" ==> Step(s, Backspace) == s.(input := s.input[..|s.input| - 1])
    ensures Step(s, Backspace).input + (if s.input == "" then "" else [s.input[|s.input| - 1]]) == s.input
  {
  }

  /** Esc returns to Normal and keeps the input. */
  lemma EditingEsc(s: Session)
    requires s.mode == Editing
    ensures Step(s, Esc) == s.(mode := Normal)
  {
  }

  /** Up, Down and the other keys do nothing while editing. */
  lemma EditingOtherKeys(s: Session, k: Key)
    requires s.mode == Editing
    requires !k.Char? && k != Enter && k != Backspace && k != Esc
    ensures Step(s, k) == s
  {
  }

  /** Leaving Editing with Esc and coming back with 'e' never clears the input. */
  lemma EscThenEditKeepsInput(s: Session)
    requires s.mode == Editing
    ensures Run(s, [Esc, Char('e')]) == s
  {
  }

  // ---------------------------------------------------------------------------
  // One step and many

  /** A key press either leaves the history alone or appends the non-empty
      input as its one new entry, and only Enter in Editing mode does that. */
  lemma StepHistory(s: Session, k: Key)
    ensures var t := Step(s, k);
      t.history == s.history ||
      (s.mode == Editing && k == Enter && s.input != "" && t.history == s.history + [s.input])
  {
  }

  /** Only 'q' in Normal mode sets the quit flag, and nothing clears it. */
  lemma StepQuit(s: Session, k: Key)
    ensures s.quit ==> Step(s, k).quit
    ensures !s.quit && Step(s, k).quit ==> s.mode == Normal && k == Char('q')
  {
  }

  /** Key presses only ever extend the history, by at most one entry each,
      and never with an empty entry. */
  lemma {:induction false} HistoryOnlyGrows(s: Session, keys: seq<Key>)
    ensures var t := Run(s, keys);
      s.history <= t.history &&
      |t.history| <= |s.history| + |keys| &&
      forall i :: |s.history| <= i < |t.history| ==> t.history[i] != ""
    decreases |keys|
  {
    if keys != [] {
      var s1 := Step(s, keys[0]);
      StepHistory(s, keys[0]);
      HistoryOnlyGrows(s1, keys[1..]);
    }
  }

  /** Once requested, a quit stays requested whatever keys follow. */
  lemma {:induction false} QuitIsSticky(s: Session, keys: seq<Key>)
    requires s.quit
    ensures Run(s, keys).quit
    decreases |keys|
  {
    if keys != [] {
      QuitIsSticky(Step(s, keys[0]), keys[1..]);
    }
  }

  function Repeat(k: Key, n: nat): (r: seq<Key>)
    ensures |r| == n
  {
    if n == 0 then [] else [k] + Repeat(k, n - 1)
  }

  /** The key presses that type `text`. */
  function Typed(text: string): (r: seq<Key>)
    ensures |r| == |text|
  {
    if text == [] then [] else [Char(text[0])] + Typed(text[1..])
  }

  /** `n` presses of Down in Normal mode saturate at 65535 and never wrap. */
  lemma {:induction false} DownsSaturate(s: Session, n: nat)
    requires s.mode == Normal
    ensures Run(s, Repeat(Down, n)) ==
      s.(scrollY := if s.scrollY as int + n <= 65535 then (s.scrollY as int + n) as U16 else U16_MAX)
    decreases n
  {
    if n > 0 {
      DownsSaturate(Step(s, Down), n - 1);
    }
  }

  /** `n` presses of Up in Normal mode stop at zero. */
  lemma {:induction false} UpsSaturate(s: Session, n: nat)
    requires s.mode == Normal
    ensures Run(s, Repeat(Up, n)) ==
      s.(scrollY := if s.scrollY as int >= n then (s.scrollY as int - n) as U16 else 0)
    decreases n
  {
    if n > 0 {
      UpsSaturate(Step(s, Up), n - 1);
    }
  }

  /** Typing any text in Editing mode appends it to the input and changes
      nothing else: no character quits, scrolls or commits. */
  lemma {:induction false} TypingAppends(s: Session, text: string)
    requires s.mode == Editing
    ensures Run(s, Typed(text)) == s.(input := s.input + text)
    decreases |text|
  {
    if text != [] {
      TypingAppends(Step(s, Char(text[0])), text[1..]);
      assert s.input + [text[0]] + text[1..] == s.input + text;
    }
  }

  // ---------------------------------------------------------------------------
  // The main loop: a draw before every key

  /** A key does the same to every offset except the offset itself. */
  lemma StepIgnoresOffset(s: Session, k: Key, y: U16)
    ensures Step(s.(scrollY := y), k) == Step(s, k).(scrollY := Step(s.(scrollY := y), k).scrollY)
  {
    match s.mode
    case Normal =>
    case Editing =>
  }

  /** One round of the main loop does what the key does, except that the key
      moves the clamped offset, so the offset ends at most one past the
      history. */
  lemma LoopStepEffect(s: Session, k: Key)
    ensures LoopStep(s, k) == Step(s, k).(scrollY := LoopStep(s, k).scrollY)
    ensures LoopStep(s, k).scrollY as int <= Render(s).scroll as int + 1 <= |s.history| + 1
  {
    var c := Render(s).scroll;
    StepIgnoresOffset(s, k, c);
  }

  /** Across the main loop the offset never runs more than one past the
      history: each draw clamps it, and one key moves it by at most one. */
  lemma {:induction false} LoopOffsetBound(s: Session, keys: seq<Key>)
    requires s.scrollY as int <= |s.history| + 1
    ensures Loop(s, keys).scrollY as int <= |Loop(s, keys).history| + 1
    ensures s.history <= Loop(s, keys).history
    decreases |keys|
  {
    if keys != [] {
      var t := LoopStep(s, keys[0]);
      LoopStepEffect(s, keys[0]);
      StepHistory(s, keys[0]);
      assert s.history <= t.history;
      if !t.quit {
        LoopOffsetBound(t, keys[1..]);
      }
    }
  }

  /** At offset 0 and with no Down key, the draws between keys change
      nothing: the loop ends where the keys alone lead. */
  lemma {:induction false} LoopWithoutDownIsRun(s: Session, keys: seq<Key>)
    requires s.scrollY == 0
    requires forall i :: 0 <= i < |keys| ==> keys[i] != Down
    requires !Run(s, keys).quit
    ensures Loop(s, keys) == Run(s, keys)
    ensures Loop(s, keys).scrollY == 0
    decreases |keys|
  {
    if keys != [] {
      assert keys[0] != Down;
      assert s.(scrollY := Render(s).scroll) == s;
      var t := Step(s, keys[0]);
      if t.quit {
        QuitIsSticky(t, keys[1..]);
      }
      LoopWithoutDownIsRun(t, keys[1..]);
    }
  }

  /** The main loop handles no key after the one that requests quitting. */
  lemma LoopEndsAtQuit(s: Session, k: Key, rest: seq<Key>)
    requires LoopStep(s, k).quit
    ensures Loop(s, [k] + rest) == LoopStep(s, k)
  {
  }

  /** The draws matter for scrolling: with one message, three Downs move the
      offset to 3 with no draw between them, but to 2 in the main loop, which
      clamps it back to 1 before each key. */
  lemma DrawBetweenKeysClamps()
    ensures var s := Initial.(history := ["Welcome to the Chat"]);
      Run(s, [Down, Down, Down]).scrollY == 3 &&
      Loop(s, [Down, Down, Down]).scrollY == 2
  {
    var s := Initial.(history := ["Welcome to the Chat"]);
    var keys := [Down, Down, Down];
    assert keys[1..] == [Down, Down] && keys[1..][1..] == [Down] && keys[1..][1..][1..] == [];
    var l1 := LoopStep(s, Down);
    assert l1.scrollY == 1;
    var l2 := LoopStep(l1, Down);
    assert l2.scrollY == 2;
    var l3 := LoopStep(l2, Down);
    assert l3.scrollY == 2;
  }

  /** The start-up session: a welcome message, then "e", "hi", Enter and "q",
      with and without the draws of the main loop between the keys. */
  lemma WelcomeScenario()
    ensures var s := Initial.(history := ["Welcome to the Chat"]);
      var keys := [Char('e'), Char('h'), Char('i'), Enter, Char('q')];
      var t := Session("q", Editing, ["Welcome to the Chat", "hi"], false, 0);
      Run(s, keys) == t && Loop(s, keys) == t
  {
    var s := Initial.(history := ["Welcome to the Chat"]);
    var keys := [Char('e'), Char('h'), Char('i'), Enter, Char('q')];
    var s1 := s.(mode := Editing);
    var s2 := s1.(input := "h");
    var s3 := s1.(input := "hi");
    var s4 := s1.(history := ["Welcome to the Chat", "hi"]);
    var s5 := s4.(input := "q");
    assert "" + ['h'] == "h" && "h" + ['i'] == "hi" && "" + ['q'] == "q";
    assert ["Welcome to the Chat"] + ["hi"] == ["Welcome to the Chat", "hi"];
    assert Run(s5, []) == s5;
    assert Run(s4, keys[4..]) == s5 by { assert keys[4..][1..] == []; }
    assert Run(s3, keys[3..]) == s5 by { assert keys[3..][1..] == keys[4..]; }
    assert Run(s2, keys[2..]) == s5 by { assert keys[2..][1..] == keys[3..]; }
    assert Run(s1, keys[1..]) == s5 by { assert keys[1..][1..] == keys[2..]; }
    LoopWithoutDownIsRun(s, keys);
  }

  // ---------------------------------------------------------------------------
  // Rendering

  /** Adding a message never renumbers the lines already there. */
  lemma MessageLinesAppend(h: seq<string>, m: string)
    ensures MessageLines(h + [m]) == MessageLines(h) + [Line(|h|, m)]
  {
  }

  /** In a line the numeral's digits are followed by a colon. */
  lemma ColonAfterDigits(d: string, rest: string)
    requires Decimal.AllDigits(d)
    ensures (d + (": " + rest))[|d|] == ':'
    ensures forall i :: 0 <= i < |d| ==> Decimal.IsDigit((d + (": " + rest))[i])
  {
  }

  /** A display line gives back its index and its message: distinct
      entries never share a line. */
  lemma LineDetermines(i: nat, j: nat, m: string, n: string)
    ensures Line(i, m) == Line(j, n) ==> i == j && m == n
  {
    if Line(i, m) == Line(j, n) {
      var a, b := Decimal.Show(i), Decimal.Show(j);
      var x := Line(i, m);
      assert x == a + (": " + (m + "\n")) && x == b + (": " + (n + "\n"));
      ColonAfterDigits(a, m + "\n");
      ColonAfterDigits(b, n + "\n");
      assert |a| == |b|;
      assert a == x[..|a|] == b;
      Decimal.ShowInjective(i, j);
      assert m + "\n" == x[|a| + 2..] == n + "\n";
      assert m == (m + "\n")[..|m|] == (n + "\n")[..|n|] == n;
    }
  }

  /** The synthetic line carries no index, so it is never a message's line. */
  lemma MarkerIsNotALine(c: U16, i: nat, m: string)
    ensures Marker(c) != Line(i, m)
  {
    assert Marker(c)[0] == '.';
    assert Line(i, m)[0] == Decimal.Show(i)[0];
  }

  /** The three layouts: the synthetic line inserted at the offset when
      0 < s < N, appended when s >= N (N = 0 and s = 0 included), and absent
      when s = 0 < N. */
  lemma RenderLayout(s: Session)
    ensures var m, lines, n := Render(s), MessageLines(s.history), NumMessages(|s.history|);
      (0 < m.scroll < n ==>
        m.lines == lines[..m.scroll] + [Marker(m.scroll)] + lines[m.scroll..] &&
        |m.lines| == n as int + 1) &&
      (m.scroll >= n ==> m.lines == lines + [Marker(m.scroll)]) &&
      (m.scroll == 0 < n ==> m.lines == lines)
  {
  }

  /** Clamping is idempotent: drawing again after a draw changes nothing, the
      offset it writes back included. */
  lemma RenderIdempotent(s: Session)
    ensures var t := s.(scrollY := Render(s).scroll);
      Render(t) == Render(s) && Render(t).scroll == t.scrollY
  {
  }

  /** The synthetic line for an offset below ten, digit by digit. */
  lemma MarkerText(c: U16)
    requires c < 10
    ensures Marker(c) == "..." + [Decimal.DigitChar(c as nat)] + " messages above\n"
  {
  }

  /** Five messages, offset 3: "...3 messages above" sits at position 3,
      between the three messages above it and the two below. */
  lemma FiveMessagesOffsetThree(s: Session)
    requires |s.history| == 5 && s.scrollY == 3
    ensures Render(s).scroll == 3
    ensures Render(s).lines ==
      MessageLines(s.history)[..3] + ["...3 messages above\n"] + MessageLines(s.history)[3..]
  {
    MarkerText(3);
    var x, y := Marker(3), "...3 messages above\n";
    assert |x| == |y| && forall i :: 0 <= i < |x| ==> x[i] == y[i];
    assert x == y;
    RenderLayout(s);
  }

  /** No messages, offset 7: the offset clamps to 0 and, since 0 >= 0, the one
      line shown is "...0 messages above". */
  lemma EmptyHistoryOffsetSeven(s: Session)
    requires s.history == [] && s.scrollY == 7
    ensures Render(s).scroll == 0
    ensures Render(s).lines == ["...0 messages above\n"]
  {
    MarkerText(0);
    var x, y := Marker(0), "...0 messages above\n";
    assert |x| == |y| && forall i :: 0 <= i < |x| ==> x[i] == y[i];
    assert x == y;
    RenderLayout(s);
  }

  /** Two messages, offset 5: the offset clamps to 2 and the synthetic line
      goes after both messages. */
  lemma TwoMessagesOffsetFive(s: Session)
    requires |s.history| == 2 && s.scrollY == 5
    ensures Render(s).scroll == 2
    ensures Render(s).lines == [Line(0, s.history[0]), Line(1, s.history[1]), "...2 messages above\n"]
  {
    MarkerText(2);
    var x, y := Marker(2), "...2 messages above\n";
    assert |x| == |y| && forall i :: 0 <= i < |x| ==> x[i] == y[i];
    assert x == y;
    RenderLayout(s);
    var lines := MessageLines(s.history);
    assert lines == [Line(0, s.history[0]), Line(1, s.history[1])];
  }
}
