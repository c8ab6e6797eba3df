/**
 * The Windows console controller `Win` of libs/terminate/control.py. The console keeps
 * one attribute word: foreground colour in bits 0-2, foreground intensity in bit 3,
 * background colour in bits 4-6 and background intensity in bit 7. The controller keeps
 * four flags and the "real" foreground colour beside it, and `_display` reads the word,
 * transforms it and writes it back. The word the console reports is an unsigned 16-bit
 * value, so it is modelled as `bv16`; `_get_attributes`/`_set_attributes` become reads
 * and writes of the field `attrs`.
 */
module WinConsole {
  import opened Wrappers
  import opened Control

  type Word = bv16

  const FgBlue: Word := 0x01
  const FgGreen: Word := 0x02
  const FgRed: Word := 0x04
  const FgIntensity: Word := 0x08
  const BgBlue: Word := 0x10
  const BgGreen: Word := 0x20
  const BgRed: Word := 0x40
  const BgIntensity: Word := 0x80
  const FgAll: Word := FgBlue | FgGreen | FgRed
  const BgAll: Word := BgBlue | BgGreen | BgRed

  /** `Win.FG`: the console's foreground bits for a colour. */
  function WinFg(c: Color): Word
  {
    match c
    case Black => 0
    case Red => FgRed
    case Green => FgGreen
    case Yellow => FgGreen | FgRed
    case Blue => FgBlue
    case Magenta => FgBlue | FgRed
    case Cyan => FgBlue | FgGreen
    case White => FgBlue | FgGreen | FgRed
  }

  /** `Win.BG`: the console's background bits for a colour. */
  function WinBg(c: Color): Word
  {
    match c
    case Black => 0
    case Red => BgRed
    case Green => BgGreen
    case Yellow => BgGreen | BgRed
    case Blue => BgBlue
    case Magenta => BgBlue | BgRed
    case Cyan => BgBlue | BgGreen
    case White => BgBlue | BgGreen | BgRed
  }

  /**
   * The ANSI colour number (red = 1, green = 2, blue = 4) with its red and blue bits
   * exchanged: the console's own bit order for the same colour.
   */
  function RgbToConsole(i: nat): Word
    requires i < 8
  {
    (if i % 2 == 1 then FgRed else 0) | (if (i / 2) % 2 == 1 then FgGreen else 0)
    | (if i / 4 == 1 then FgBlue else 0)
  }

  /** Both tables name the same red, green and blue components as the ANSI colour number. */
  lemma ConsoleColorTables(c: Color)
    ensures WinFg(c) == RgbToConsole(ColorIndex(c))
    ensures WinBg(c) == WinFg(c) * 0x10
    ensures WinFg(c) & FgAll == WinFg(c) && WinBg(c) & BgAll == WinBg(c)
  {
  }

  // ---------------------------------------------------------------- the word's four parts

  /** The four parts of an attribute word, each still at its bit position. */
  datatype Parts = Parts(fg: Word, fgi: Word, bg: Word, bgi: Word)

  /** `_split_attributes`. */
  function SplitAttributes(attrs: Word): (p: Parts)
    ensures p.fg <= 7 && p.fgi in {0, FgIntensity}
    ensures p.bg & BgAll == p.bg && p.bgi in {0, BgIntensity}
    ensures CatAttributes(p) == attrs & 0xff
  {
    Parts(attrs & FgAll, attrs & FgIntensity, attrs & BgAll, attrs & BgIntensity)
  }

  /** `_cat_attributes`. */
  function CatAttributes(p: Parts): Word
  {
    p.fg | p.fgi | p.bg | p.bgi
  }

  /** The nibble exchange `_display` performs for reverse video. */
  function Swapped(p: Parts): Parts
  {
    Parts(p.bg / 0x10, p.bgi / 0x10, p.fg * 0x10, p.fgi * 0x10)
  }

  /** Swapping the parts of a word twice gives the parts back. */
  lemma SwappedTwice(attrs: Word)
    ensures Swapped(Swapped(SplitAttributes(attrs))) == SplitAttributes(attrs)
    ensures SplitAttributes(CatAttributes(Swapped(SplitAttributes(attrs))))
            == Swapped(SplitAttributes(attrs))
  {
  }

  // ---------------------------------------------------------------- the controller state

  /** Everything `_display` reads and writes: the console word and the controller's flags. */
  datatype Console = Console(attrs: Word, hidden: bool, reverseOut: bool, reverseIn: bool,
                             dim: bool, realFg: Word)

  /** The state right after `__init__`: the word is the default word. */
  function Initial(dflt: Word): Console
  {
    Console(dflt, false, false, false, false, dflt & 7)
  }

  /** What `_display` keeps true between calls. */
  predicate Settled(s: Console)
  {
    s.reverseIn == s.reverseOut && s.realFg <= 7
  }

  /**
   * `_undim`: put the real foreground colour back into the half the console shows it in,
   * the background half when the word is read reversed; the masks keep the other bits of
   * the low byte and clear the high byte.
   */
  function Undimmed(s: Console): (r: Console)
    ensures !r.dim && r == s.(dim := false, attrs := r.attrs)
    ensures s.realFg <= 7 ==>
              && r.attrs & 0xff00 == 0
              && if s.reverseIn then r.attrs & BgAll == s.realFg * 0x10 && r.attrs & 0x8f == s.attrs & 0x8f
                 else r.attrs & FgAll == s.realFg && r.attrs & 0xf8 == s.attrs & 0xf8
  {
    if s.reverseIn then s.(dim := false, attrs := (s.realFg * 0x10) | (s.attrs & 0x8f))
    else s.(dim := false, attrs := s.realFg | (s.attrs & 0xf8))
  }

  /**
   * One `_display_<code>` call, found by name: the state after it and what it returns
   * (0 where it returns None, or where no such method exists and AttributeError is
   * swallowed, as for underline and blink).
   */
  function ApplyCode(s: Console, dflt: Word, c: Attr): (Console, Word)
  {
    match c
    case Default => (Initial(dflt), 0)
    case Bright => (Undimmed(s), FgIntensity)
    case Dim => (s.(dim := true), 0)
    case Reverse => (s.(reverseOut := true), 0)
    case Hidden => (s.(hidden := true), 0)
    case Underline => (s, 0)
    case Blink => (s, 0)
  }

  /** The loop over the codes: the state reached and the bits OR-ed into `color`. */
  function ApplyCodes(s: Console, dflt: Word, codes: seq<Attr>): (Console, Word)
  {
    if codes == [] then (s, 0)
    else
      var before := ApplyCodes(s, dflt, codes[..|codes| - 1]);
      var step := ApplyCode(before.0, dflt, codes[|codes| - 1]);
      (step.0, before.1 | step.1)
  }

  /** The word's parts as `_display` reads them, un-swapped when reverse input is set. */
  function Current(t: Console): Parts
  {
    var read := SplitAttributes(t.attrs);
    if t.reverseIn then Swapped(read) else read
  }

  /** The word `_display` composes after the loop, before dim, reverse and hidden apply. */
  function Composed(cur: Parts, color: Word, fg: Option<Color>, bg: Option<Color>): Word
  {
    color | FgBits(cur, fg) | BgBits(cur, bg) | (cur.fgi | cur.bgi)
  }

  lemma ComposedFrom(cur: Parts, color: Word, fg: Option<Color>, bg: Option<Color>, partial: Word)
    requires partial == color | FgBits(cur, fg) | BgBits(cur, bg)
    ensures partial | (cur.fgi | cur.bgi) == Composed(cur, color, fg, bg)
  {
  }

  /** The requested foreground's bits, or the current ones. */
  function FgBits(cur: Parts, fg: Option<Color>): Word
  {
    if fg.Some? then WinFg(fg.value) else cur.fg
  }

  /** The requested background's bits, or the current ones. */
  function BgBits(cur: Parts, bg: Option<Color>): Word
  {
    if bg.Some? then WinBg(bg.value) else cur.bg
  }

  /** The parts `_display` finally writes, from the composed word and the flags. */
  function Finished(color: Word, dim: bool, reverse: bool, hidden: bool): Parts
  {
    var p := SplitAttributes(color);
    var p1 := if dim then p.(fg := 0, fgi := FgIntensity) else p;
    var p2 := if reverse then Swapped(p1) else p1;
    if hidden then p2.(fg := p2.bg / 0x10, fgi := p2.bgi / 0x10) else p2
  }

  /** `Win._display(codes, fg, bg)` on state `s`, with default word `dflt`. */
  function Displayed(s: Console, dflt: Word, codes: seq<Attr>, fg: Option<Color>, bg: Option<Color>): Console
  {
    var (t, color) := ApplyCodes(s, dflt, codes);
    var word := Composed(Current(t), color, fg, bg);
    t.(attrs := CatAttributes(Finished(word, t.dim, t.reverseOut, t.hidden)),
       realFg := if fg.Some? then WinFg(fg.value) else t.realFg,
       reverseIn := t.reverseIn || t.reverseOut)
  }

  // ---------------------------------------------------------------- the controller

  class Win {
    /** The word the console reported when the controller was made. */
    const defaultAttributes: Word
    /** The console's current attribute word. */
    var attrs: Word
    var hiddenOutput: bool
    var reverseOutput: bool
    var reverseInput: bool
    var dimOutput: bool
    var realFg: Word

    function State(): Console
      reads this
    {
      Console(attrs, hiddenOutput, reverseOutput, reverseInput, dimOutput, realFg)
    }

    /** `WinCTypes.__init__` on a console currently showing `initial`. */
    constructor(initial: Word)
      ensures defaultAttributes == initial && State() == Initial(initial)
    {
      defaultAttributes := initial;
      attrs := initial;
      hiddenOutput, reverseOutput, reverseInput, dimOutput := false, false, false, false;
      realFg := initial & 0x7;
    }

    method Undim()
      modifies this
      ensures State() == Undimmed(old(State()))
    {
      dimOutput := false;
      if reverseInput {
        var a := attrs & 0x8f;
        attrs := (realFg * 0x10) | a;
      } else {
        var a := attrs & 0xf8;
        attrs := realFg | a;
      }
    }

    method DisplayDefault()
      modifies this
      ensures State() == Initial(defaultAttributes)
    {
      hiddenOutput := false;
      reverseOutput := false;
      reverseInput := false;
      dimOutput := false;
      realFg := defaultAttributes & 0x7;
      attrs := defaultAttributes;
    }

    method DisplayBright() returns (out: Word)
      modifies this
      ensures State() == Undimmed(old(State())) && out == FgIntensity
    {
      Undim();
      return FgIntensity;
    }

    method DisplayDim()
      modifies this
      ensures State() == old(State()).(dim := true)
    {
      dimOutput := true;
    }

    method DisplayReverse()
      modifies this
      ensures State() == old(State()).(reverseOut := true)
    {
      reverseOutput := true;
    }

    method DisplayHidden()
      modifies this
      ensures State() == old(State()).(hidden := true)
    {
      hiddenOutput := true;
    }

    /** `getattr(self, '_display_' + c)()`, with AttributeError for a missing method swallowed. */
    method DisplayCode(c: Attr) returns (out: Word)
      modifies this
      ensures State() == ApplyCode(old(State()), defaultAttributes, c).0
      ensures out == ApplyCode(old(State()), defaultAttributes, c).1
    {
      out := 0;
      match c
      case Default => DisplayDefault();
      case Bright => out := DisplayBright();
      case Dim => DisplayDim();
      case Reverse => DisplayReverse();
      case Hidden => DisplayHidden();
      case Underline =>
      case Blink =>
    }

    /** `Win._display`, on codes and colours `formatcodes` already validated. */
    method Display(codes: seq<Attr>, fg: Option<Color>, bg: Option<Color>)
      modifies this
      ensures State() == Displayed(old(State()), defaultAttributes, codes, fg, bg)
    {
      var color: Word := 0;
      var i := 0;
      while i < |codes|
        invariant 0 <= i <= |codes|
        invariant State() == ApplyCodes(old(State()), defaultAttributes, codes[..i]).0
        invariant color == ApplyCodes(old(State()), defaultAttributes, codes[..i]).1
      {
        ghost var before := State();
        var out := DisplayCode(codes[i]);
        ApplyStep(old(State()), defaultAttributes, codes, i, before, color, State(), out);
        if out != 0 {
          color := color | out;
        }
        i := i + 1;
      }
      assert codes[..i] == codes;
      ghost var t := State();
      var word := ComposeWord(color, fg, bg);
      WriteFinished(word);
      DisplayedFrom(old(State()), defaultAttributes, codes, fg, bg, t, color, word,
                    Finished(word, t.dim, t.reverseOut, t.hidden));
    }

    /**
     * The middle of `_display`: read the word back (un-swapped under reverse input) and
     * OR the requested colours, or the current ones, and both intensities into `color`.
     */
    method ComposeWord(color: Word, fg: Option<Color>, bg: Option<Color>) returns (word: Word)
      modifies this
      ensures word == Composed(Current(old(State())), color, fg, bg)
      ensures State() == old(State()).(realFg := if fg.Some? then WinFg(fg.value) else old(realFg))
    {
      word := color;
      var cur := SplitAttributes(attrs);
      if reverseInput {
        cur := Swapped(cur);
      }
      assert cur == Current(old(State()));
      if fg.Some? {
        word := word | WinFg(fg.value);
        realFg := WinFg(fg.value);
      } else {
        word := word | cur.fg;
      }
      if bg.Some? {
        word := word | WinBg(bg.value);
      } else {
        word := word | cur.bg;
      }
      ComposedFrom(cur, color, fg, bg, word);
      word := word | (cur.fgi | cur.bgi);
    }

    /** The end of `_display`: apply dim, reverse and hidden to the word's parts and write it. */
    method WriteFinished(word: Word)
      modifies this
      ensures State() == old(State()).(attrs := CatAttributes(Finished(word, old(dimOutput), old(reverseOutput), old(hiddenOutput))),
                                       reverseIn := old(reverseInput) || old(reverseOutput))
    {
      var p := SplitAttributes(word);
      if dimOutput {
        p := p.(fg := 0, fgi := FgIntensity);
      }
      if reverseOutput {
        p := Swapped(p);
        reverseInput := true;
      }
      if hiddenOutput {
        p := p.(fg := p.bg / 0x10, fgi := p.bgi / 0x10);
      }
      attrs := CatAttributes(p);
    }

    /** `Win.reset` is not implemented: it changes nothing. */
    method Reset()
      ensures State() == old(State())
    {
    }
  }

  // ---------------------------------------------------------------- properties of `_display`

  /** `display('default')`: every flag clear, the real foreground reset, the default word shown. */
  lemma DisplayDefaultRestores(s: Console, dflt: Word)
    ensures var r := Displayed(s, dflt, [Default], None, None);
            && !r.hidden && !r.reverseOut && !r.reverseIn && !r.dim
            && r.realFg == dflt & 7
            && r.attrs == dflt & 0xff
  {
    ApplySingle(s, dflt, Default);
  }


  /** `display()` with every flag clear shows the current word again (its low byte). */
  lemma EmptyDisplayKeepsWord(s: Console, dflt: Word)
    requires !s.hidden && !s.reverseOut && !s.reverseIn && !s.dim
    ensures Displayed(s, dflt, [], None, None) == s.(attrs := s.attrs & 0xff)
  {
  }

  /** The state `display` leaves behind is settled. */
  lemma DisplayedSettled(s: Console, dflt: Word, codes: seq<Attr>, fg: Option<Color>, bg: Option<Color>)
    requires Settled(s)
    ensures Settled(Displayed(s, dflt, codes, fg, bg))
  {
    ApplyCodesSettled(s, dflt, codes);
  }

  /** The loop over the codes never sets reverse input without reverse output, nor a real fg above 7. */
  lemma {:induction false} ApplyCodesSettled(s: Console, dflt: Word, codes: seq<Attr>)
    requires Settled(s)
    ensures ApplyCodes(s, dflt, codes).0.reverseIn ==> ApplyCodes(s, dflt, codes).0.reverseOut
    ensures ApplyCodes(s, dflt, codes).0.realFg <= 7
  {
    if codes != [] {
      var init := codes[..|codes| - 1];
      ApplyCodesSettled(s, dflt, init);
      var t := ApplyCodes(s, dflt, init).0;
      assert ApplyCodes(s, dflt, codes).0 == ApplyCode(t, dflt, codes[|codes| - 1]).0;
      ApplyCodeSettled(t, dflt, codes[|codes| - 1]);
    }
  }

  lemma ApplyCodeSettled(t: Console, dflt: Word, c: Attr)
    requires t.reverseIn ==> t.reverseOut
    requires t.realFg <= 7
    ensures ApplyCode(t, dflt, c).0.reverseIn ==> ApplyCode(t, dflt, c).0.reverseOut
    ensures ApplyCode(t, dflt, c).0.realFg <= 7
  {
    match c
    case Default => LowBits(dflt);
    case _ =>
  }

  lemma LowBits(w: Word)
    ensures w & 7 <= 7 && w & 0xff <= 0xff
  {
  }


  /** `Displayed` in terms of the loop's result, the composed word and the finished parts. */
  lemma DisplayedFrom(s: Console, dflt: Word, codes: seq<Attr>, fg: Option<Color>, bg: Option<Color>,
                      t: Console, loopColor: Word, word: Word, p: Parts)
    requires t == ApplyCodes(s, dflt, codes).0 && loopColor == ApplyCodes(s, dflt, codes).1
    requires word == Composed(Current(t), loopColor, fg, bg)
    requires p == Finished(word, t.dim, t.reverseOut, t.hidden)
    ensures Displayed(s, dflt, codes, fg, bg)
            == Console(CatAttributes(p), t.hidden, t.reverseOut, t.reverseIn || t.reverseOut, t.dim,
                       if fg.Some? then WinFg(fg.value) else t.realFg)
  {
  }

  /** One more turn of the loop over the codes. */
  lemma ApplyStep(s: Console, dflt: Word, codes: seq<Attr>, i: nat,
                  before: Console, color: Word, after: Console, out: Word)
    requires i < |codes|
    requires before == ApplyCodes(s, dflt, codes[..i]).0 && color == ApplyCodes(s, dflt, codes[..i]).1
    requires after == ApplyCode(before, dflt, codes[i]).0 && out == ApplyCode(before, dflt, codes[i]).1
    ensures after == ApplyCodes(s, dflt, codes[..i + 1]).0
    ensures (if out != 0 then color | out else color) == ApplyCodes(s, dflt, codes[..i + 1]).1
  {
    assert codes[..i + 1][..i] == codes[..i];
    assert ApplyCodes(s, dflt, codes[..i + 1]).1 == color | out;
    OrZero(color, out);
  }

  lemma OrZero(color: Word, out: Word)
    ensures (if out != 0 then color | out else color) == color | out
  {
  }

  /** The loop over a single code is that code's method. */
  lemma ApplySingle(s: Console, dflt: Word, c: Attr)
    ensures ApplyCodes(s, dflt, [c]) == ApplyCode(s, dflt, c)
  {
    assert [c][..0] == [];
    assert ApplyCodes(s, dflt, []) == (s, 0);
  }

  /**
   * Once a display call has happened, a `display()` with no codes and no colours changes
   * nothing: reading the word back undoes the reverse swap, and dim, reverse and hidden
   * are applied again to the same effect.
   */
  lemma RedisplayIsIdentity(s: Console, dflt: Word, codes: seq<Attr>, fg: Option<Color>, bg: Option<Color>)
    requires Settled(s)
    ensures var r := Displayed(s, dflt, codes, fg, bg);
            Displayed(r, dflt, [], None, None) == r
  {
    ApplyCodesSettled(s, dflt, codes);
    var (t, color) := ApplyCodes(s, dflt, codes);
    FinishedIsStable(Composed(Current(t), color, fg, bg), t.dim, t.reverseOut, t.hidden);
  }

  /** Reading back what `Finished` wrote, un-swapping it when reversed, and finishing again is the identity. */
  lemma FinishedIsStable(color: Word, dim: bool, reverse: bool, hidden: bool)
    ensures var w := CatAttributes(Finished(color, dim, reverse, hidden));
            var read := SplitAttributes(w);
            var cur := if reverse then Swapped(read) else read;
            CatAttributes(Finished(cur.fg | cur.bg | (cur.fgi | cur.bgi), dim, reverse, hidden)) == w
  {
  }

  /**
   * Reverse is sticky: a second `display('reverse')` writes the same word as the first,
   * which has the foreground and background halves of the word exchanged.
   */
  lemma ReverseIsSticky(s: Console, dflt: Word)
    requires !s.hidden && !s.reverseOut && !s.reverseIn && !s.dim && s.realFg <= 7
    ensures var r1 := Displayed(s, dflt, [Reverse], None, None);
            var r2 := Displayed(r1, dflt, [Reverse], None, None);
            && r1.attrs == CatAttributes(Swapped(SplitAttributes(s.attrs)))
            && r1.reverseOut && r1.reverseIn
            && r2 == r1
  {
    var r1 := Displayed(s, dflt, [Reverse], None, None);
    ApplySingle(s, dflt, Reverse);
    ReadUnchanged(s.attrs);
    RedisplayIsIdentity(s, dflt, [Reverse], None, None);
    ApplySingle(r1, dflt, Reverse);
    assert r1.(reverseOut := true) == r1;
    assert ApplyCodes(r1, dflt, [Reverse]) == ApplyCodes(r1, dflt, []);
  }

  /** Reading a word and composing it with no colour requested gives its low byte, whose parts are the word's. */
  lemma ReadUnchanged(a: Word)
    ensures Composed(SplitAttributes(a), 0, None, None) == a & 0xff
    ensures SplitAttributes(a & 0xff) == SplitAttributes(a)
  {
  }

  /** With dim set and neither reverse nor hidden, the word shows intense black text. */
  lemma DimShowsIntenseBlack(s: Console, dflt: Word, codes: seq<Attr>, fg: Option<Color>, bg: Option<Color>)
    ensures var r := Displayed(s, dflt, codes, fg, bg);
            r.dim && !r.reverseOut && !r.hidden ==> r.attrs & 0x0f == FgIntensity
  {
  }

  /** With hidden set, the foreground colour and intensity equal the background's. */
  lemma HiddenMatchesBackground(s: Console, dflt: Word, codes: seq<Attr>, fg: Option<Color>, bg: Option<Color>)
    ensures var r := Displayed(s, dflt, codes, fg, bg);
            r.hidden ==> r.attrs & FgAll == (r.attrs & BgAll) / 0x10
                         && r.attrs & FgIntensity == (r.attrs & BgIntensity) / 0x10
  {
  }

  /** Asking for colours without dim, reverse or hidden shows exactly those colours. */
  lemma ColorsShown(s: Console, dflt: Word, codes: seq<Attr>, fg: Color, bg: Color)
    ensures var r := Displayed(s, dflt, codes, Some(fg), Some(bg));
            && r.realFg == WinFg(fg)
            && (!r.dim && !r.reverseOut && !r.hidden ==> r.attrs & FgAll == WinFg(fg) && r.attrs & BgAll == WinBg(bg))
  {
    LoopColor(s, dflt, codes);
  }

  /** The bits the loop OR-s into `color`: the foreground intensity exactly when `bright` is among the codes. */
  lemma {:induction false} LoopColor(s: Console, dflt: Word, codes: seq<Attr>)
    ensures ApplyCodes(s, dflt, codes).1 == if Bright in codes then FgIntensity else 0
  {
    if codes != [] {
      var init := codes[..|codes| - 1];
      assert codes == init + [codes[|codes| - 1]];
      LoopColor(s, dflt, init);
    }
  }

  /**
   * `bright` after `dim` shows the real foreground colour again: `dim` shows intense black,
   * and the following `bright` puts the remembered colour back beside the intensity bit,
   * leaving the background as it was.
   */
  lemma DimThenBright(s: Console, dflt: Word)
    requires Settled(s) && !s.reverseOut && !s.hidden && !s.dim
    ensures var r1 := Displayed(s, dflt, [Dim], None, None);
            var r2 := Displayed(r1, dflt, [Bright], None, None);
            && r1.dim && r1.attrs & 0x0f == FgIntensity
            && !r2.dim && r2.attrs & 0x0f == s.realFg | FgIntensity
            && r2.attrs & 0xf0 == s.attrs & 0xf0
  {
    ApplySingle(s, dflt, Dim);
    var r1 := Displayed(s, dflt, [Dim], None, None);
    ApplySingle(r1, dflt, Bright);
  }

  /** So `display('bright', ...)` without reverse or hidden shows intense text. */
  lemma BrightShowsIntense(s: Console, dflt: Word, codes: seq<Attr>, fg: Option<Color>, bg: Option<Color>)
    requires Bright in codes
    ensures var r := Displayed(s, dflt, codes, fg, bg);
            !r.reverseOut && !r.hidden ==> r.attrs & FgIntensity == FgIntensity
  {
    LoopColor(s, dflt, codes);
  }
}
