/** The static key list of the svgalib keyboard backend and the symbolic
    values of the constants it is written in. The numeric values of the
    normalized codes (KEYB_*) and of the svgalib scancodes (SCANCODE_*) live in
    headers that are not part of this model, so they are parameters here. */
module SvgalibKeys {
  import opened CodeTable

  /** The normalized keys named in the static list, in its order. */
  datatype Key =
    A | B | C | D | E | F | G | H | I | J | K | L | M | N | O | P | Q | R | S | T | U |
    V | W | X | Y | Z | Digit0 | Digit1 | Digit2 | Digit3 | Digit4 | Digit5 | Digit6 |
    Digit7 | Digit8 | Digit9 | Pad0 | Pad1 | Pad2 | Pad3 | Pad4 | Pad5 | Pad6 | Pad7 |
    Pad8 | Pad9 | F1 | F2 | F3 | F4 | F5 | F6 | F7 | F8 | F9 | F10 | F11 | F12 | Esc |
    Backquote | Minus | Equals | Backspace | Tab | OpenBrace | CloseBrace | Enter |
    Semicolon | Quote | Backslash | Less | Comma | Period | Slash | Space | Insert |
    Del | Home | End | PgUp | PgDn | Left | Right | Up | Down | SlashPad | Asterisk |
    MinusPad | PlusPad | PeriodPad | EnterPad | PrtScr | Pause | LShift | RShift |
    LControl | RControl | Alt | AltGr | LWin | RWin | Menu | ScrLock | NumLock |
    CapsLock

  /** The svgalib scancode names used by the static list. */
  datatype Scan =
    ScA | ScB | ScC | ScD | ScE | ScF | ScG | ScH | ScI | ScJ | ScK | ScL | ScM | ScN |
    ScO | ScP | ScQ | ScR | ScS | ScT | ScU | ScV | ScW | ScX | ScY | ScZ | Sc0 | Sc1 |
    Sc2 | Sc3 | Sc4 | Sc5 | Sc6 | Sc7 | Sc8 | Sc9 | ScKeypad0 | ScKeypad1 | ScKeypad2 |
    ScKeypad3 | ScKeypad4 | ScKeypad5 | ScKeypad6 | ScKeypad7 | ScKeypad8 | ScKeypad9 |
    ScF1 | ScF2 | ScF3 | ScF4 | ScF5 | ScF6 | ScF7 | ScF8 | ScF9 | ScF10 | ScF11 |
    ScF12 | ScEscape | ScGrave | ScMinus | ScEqual | ScBackspace | ScTab |
    ScBracketLeft | ScBracketRight | ScEnter | ScSemicolon | ScApostrophe |
    ScBackslash | ScLess | ScComma | ScPeriod | ScSlash | ScSpace | ScInsert |
    ScRemove | ScHome | ScEnd | ScPageUp | ScPageDown | ScCursorBlockLeft |
    ScCursorBlockRight | ScCursorBlockUp | ScCursorBlockDown | ScKeypadDivide |
    ScKeypadMultiply | ScKeypadMinus | ScKeypadPlus | ScKeypadPeriod | ScKeypadEnter |
    ScPrintScreen | ScBreak | ScLeftShift | ScRightShift | ScLeftControl |
    ScRightControl | ScLeftAlt | ScRightAlt | ScLeftWin | ScRightWin | ScScrollLock |
    ScNumLock | ScCapsLock

  /** The native code of an entry: a named scancode, or a literal value
      where svgalib defines no name (the menu key). */
  datatype NativeName = Scancode(scan: Scan) | Literal(value: nat)

  /** One line of the static list, by name. */
  datatype Entry = Entry(key: Key, native: NativeName)

  /** The values of the header constants: the table size KEYB_MAX, the
      normalized code of each KEYB_* key and the value of each SCANCODE_*. */
  datatype KeyCodes = KeyCodes(keybMax: nat, keyb: Key -> nat, scancode: Scan -> nat)
  {
    /** Every normalized key code indexes the table. */
    ghost predicate Valid()
    {
      forall k :: keyb(k) < keybMax
    }

    function NativeValue(n: NativeName): (v: nat)
      ensures n.Literal? ==> v == n.value
    {
      match n
      case Scancode(s) => scancode(s)
      case Literal(v) => v
    }

    /** The pair one entry of the list stands for. */
    function PairOf(e: Entry): (p: Pair)
      ensures p.os == keyb(e.key) && p.code == NativeValue(e.native)
    {
      Pair(keyb(e.key), NativeValue(e.native))
    }
  }

  /** The static list, pair by pair, without its sentinel. */
  function Entries(): (es: seq<Entry>)
    ensures |es| == 105
  {
    [
      Entry(A, Scancode(ScA)),
      Entry(B, Scancode(ScB)),
      Entry(C, Scancode(ScC)),
      Entry(D, Scancode(ScD)),
      Entry(E, Scancode(ScE)),
      Entry(F, Scancode(ScF)),
      Entry(G, Scancode(ScG)),
      Entry(H, Scancode(ScH)),
      Entry(I, Scancode(ScI)),
      Entry(J, Scancode(ScJ)),
      Entry(K, Scancode(ScK)),
      Entry(L, Scancode(ScL)),
      Entry(M, Scancode(ScM)),
      Entry(N, Scancode(ScN)),
      Entry(O, Scancode(ScO)),
      Entry(P, Scancode(ScP)),
      Entry(Q, Scancode(ScQ)),
      Entry(R, Scancode(ScR)),
      Entry(S, Scancode(ScS)),
      Entry(T, Scancode(ScT)),
      Entry(U, Scancode(ScU)),
      Entry(V, Scancode(ScV)),
      Entry(W, Scancode(ScW)),
      Entry(X, Scancode(ScX)),
      Entry(Y, Scancode(ScY)),
      Entry(Z, Scancode(ScZ)),
      Entry(Digit0, Scancode(Sc0)),
      Entry(Digit1, Scancode(Sc1)),
      Entry(Digit2, Scancode(Sc2)),
      Entry(Digit3, Scancode(Sc3)),
      Entry(Digit4, Scancode(Sc4)),
      Entry(Digit5, Scancode(Sc5)),
      Entry(Digit6, Scancode(Sc6)),
      Entry(Digit7, Scancode(Sc7)),
      Entry(Digit8, Scancode(Sc8)),
      Entry(Digit9, Scancode(Sc9)),
      Entry(Pad0, Scancode(ScKeypad0)),
      Entry(Pad1, Scancode(ScKeypad1)),
      Entry(Pad2, Scancode(ScKeypad2)),
      Entry(Pad3, Scancode(ScKeypad3)),
      Entry(Pad4, Scancode(ScKeypad4)),
      Entry(Pad5, Scancode(ScKeypad5)),
      Entry(Pad6, Scancode(ScKeypad6)),
      Entry(Pad7, Scancode(ScKeypad7)),
      Entry(Pad8, Scancode(ScKeypad8)),
      Entry(Pad9, Scancode(ScKeypad9)),
      Entry(F1, Scancode(ScF1)),
      Entry(F2, Scancode(ScF2)),
      Entry(F3, Scancode(ScF3)),
      Entry(F4, Scancode(ScF4)),
      Entry(F5, Scancode(ScF5)),
      Entry(F6, Scancode(ScF6)),
      Entry(F7, Scancode(ScF7)),
      Entry(F8, Scancode(ScF8)),
      Entry(F9, Scancode(ScF9)),
      Entry(F10, Scancode(ScF10)),
      Entry(F11, Scancode(ScF11)),
      Entry(F12, Scancode(ScF12)),
      Entry(Esc, Scancode(ScEscape)),
      Entry(Backquote, Scancode(ScGrave)),
      Entry(Minus, Scancode(ScMinus)),
      Entry(Equals, Scancode(ScEqual)),
      Entry(Backspace, Scancode(ScBackspace)),
      Entry(Tab, Scancode(ScTab)),
      Entry(OpenBrace, Scancode(ScBracketLeft)),
      Entry(CloseBrace, Scancode(ScBracketRight)),
      Entry(Enter, Scancode(ScEnter)),
      Entry(Semicolon, Scancode(ScSemicolon)),
      Entry(Quote, Scancode(ScApostrophe)),
      Entry(Backslash, Scancode(ScBackslash)),
      Entry(Less, Scancode(ScLess)),
      Entry(Comma, Scancode(ScComma)),
      Entry(Period, Scancode(ScPeriod)),
      Entry(Slash, Scancode(ScSlash)),
      Entry(Space, Scancode(ScSpace)),
      Entry(Insert, Scancode(ScInsert)),
      Entry(Del, Scancode(ScRemove)),
      Entry(Home, Scancode(ScHome)),
      Entry(End, Scancode(ScEnd)),
      Entry(PgUp, Scancode(ScPageUp)),
      Entry(PgDn, Scancode(ScPageDown)),
      Entry(Left, Scancode(ScCursorBlockLeft)),
      Entry(Right, Scancode(ScCursorBlockRight)),
      Entry(Up, Scancode(ScCursorBlockUp)),
      Entry(Down, Scancode(ScCursorBlockDown)),
      Entry(SlashPad, Scancode(ScKeypadDivide)),
      Entry(Asterisk, Scancode(ScKeypadMultiply)),
      Entry(MinusPad, Scancode(ScKeypadMinus)),
      Entry(PlusPad, Scancode(ScKeypadPlus)),
      Entry(PeriodPad, Scancode(ScKeypadPeriod)),
      Entry(EnterPad, Scancode(ScKeypadEnter)),
      Entry(PrtScr, Scancode(ScPrintScreen)),
      Entry(Pause, Scancode(ScBreak)),
      Entry(LShift, Scancode(ScLeftShift)),
      Entry(RShift, Scancode(ScRightShift)),
      Entry(LControl, Scancode(ScLeftControl)),
      Entry(RControl, Scancode(ScRightControl)),
      Entry(Alt, Scancode(ScLeftAlt)),
      Entry(AltGr, Scancode(ScRightAlt)),
      Entry(LWin, Scancode(ScLeftWin)),
      Entry(RWin, Scancode(ScRightWin)),
      Entry(Menu, Literal(127)),
      Entry(ScrLock, Scancode(ScScrollLock)),
      Entry(NumLock, Scancode(ScNumLock)),
      Entry(CapsLock, Scancode(ScCapsLock))
    ]
  }

  /** The static list as pairs of codes, ended by the sentinel (KEYB_MAX, 0). */
  function Keys(c: KeyCodes): (ps: seq<Pair>)
    ensures |ps| == |Entries()| + 1
    ensures ps[|Entries()|] == Pair(c.keybMax, 0)
    ensures forall i :: 0 <= i < |Entries()| ==> ps[i] == c.PairOf(Entries()[i])
  {
    seq(|Entries()|, i requires 0 <= i < |Entries()| => c.PairOf(Entries()[i])) + [Pair(c.keybMax, 0)]
  }

  /** With every key code inside the table, the walk over the list writes
      in bounds and stops exactly at its closing sentinel. */
  lemma KeysWalk(c: KeyCodes)
    requires c.Valid()
    ensures Terminated(Keys(c), c.keybMax)
    ensures Walked(Keys(c), c.keybMax) == |Entries()|
  {
    var ps, n := Keys(c), |Entries()|;
    TerminatedIff(ps, c.keybMax);
  }

  /** A normalized code that is the code of no listed key is unmapped. */
  lemma KeysUnlisted(c: KeyCodes, code: nat)
    requires c.Valid()
    requires code < c.keybMax
    requires forall k :: c.keyb(k) != code
    ensures Terminated(Keys(c), c.keybMax)
    ensures Built(Keys(c), c.keybMax)[code] == 0
  {
    KeysWalk(c);
    BuiltUnlisted(Keys(c), c.keybMax, code);
  }

  /** Position of the pause entry in the list. */
  const PauseIndex: nat := 92

  /** The pause key is mapped to SCANCODE_BREAK in the table, provided no
      other key shares its normalized code. */
  lemma KeysPauseMapped(c: KeyCodes)
    requires c.Valid()
    requires forall k :: k != Pause ==> c.keyb(k) != c.keyb(Pause)
    ensures Terminated(Keys(c), c.keybMax)
    ensures Built(Keys(c), c.keybMax)[c.keyb(Pause)] == c.scancode(ScBreak)
  {
    KeysWalk(c);
    var ps, n := Keys(c), |Entries()|;
    assert Entries()[PauseIndex] == Entry(Pause, Scancode(ScBreak));
    var later := Entries()[PauseIndex + 1..];
    assert later == [
      Entry(LShift, Scancode(ScLeftShift)), Entry(RShift, Scancode(ScRightShift)),
      Entry(LControl, Scancode(ScLeftControl)), Entry(RControl, Scancode(ScRightControl)),
      Entry(Alt, Scancode(ScLeftAlt)), Entry(AltGr, Scancode(ScRightAlt)),
      Entry(LWin, Scancode(ScLeftWin)), Entry(RWin, Scancode(ScRightWin)),
      Entry(Menu, Literal(127)), Entry(ScrLock, Scancode(ScScrollLock)),
      Entry(NumLock, Scancode(ScNumLock)), Entry(CapsLock, Scancode(ScCapsLock))];
    forall l | PauseIndex < l < n ensures ps[l].os != ps[PauseIndex].os {
      assert Entries()[l] == later[l - PauseIndex - 1];
    }
    BuiltLastWins(ps, c.keybMax, PauseIndex);
  }
}
