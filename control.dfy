/**
 * The backend-independent half of the terminal controller (libs/terminate/control.py):
 * the attribute and colour tables, validation of a style request (`Control.formatcodes`),
 * the ANSI X3.64 / ECMA-48 Select Graphic Rendition encoder (`ANSI.displaycode`), its
 * decoder (`ANSI.readcodes`) and the choice of backend (`get_wrapper`).
 */
module Control {
  import opened Wrappers
  import opened Strings

  // ---------------------------------------------------------------- tables

  /** `Control.DISPLAY_CODES`, in table order. */
  datatype Attr = Default | Bright | Dim | Underline | Blink | Reverse | Hidden

  /** `Control.COLORS`, in table order; the order fixes the numeric codes. */
  datatype Color = Black | Red | Green | Yellow | Blue | Magenta | Cyan | White

  const DisplayCodes: seq<string> :=
    ["default", "bright", "dim", "underline", "blink", "reverse", "hidden"]

  const Colors: seq<string> :=
    ["black", "red", "green", "yellow", "blue", "magenta", "cyan", "white"]

  function AttrIndex(a: Attr): (i: nat)
    ensures i < |DisplayCodes|
  {
    match a
    case Default => 0
    case Bright => 1
    case Dim => 2
    case Underline => 3
    case Blink => 4
    case Reverse => 5
    case Hidden => 6
  }

  function AttrName(a: Attr): string { DisplayCodes[AttrIndex(a)] }

  function ColorIndex(c: Color): (i: nat)
    ensures i < |Colors|
  {
    match c
    case Black => 0
    case Red => 1
    case Green => 2
    case Yellow => 3
    case Blue => 4
    case Magenta => 5
    case Cyan => 6
    case White => 7
  }

  function ColorName(c: Color): string { Colors[ColorIndex(c)] }

  function OptColorName(c: Option<Color>): Option<string>
  {
    if c.Some? then Some(ColorName(c.value)) else None
  }

  /** The attribute a name of DISPLAY_CODES stands for. */
  function ParseAttr(name: string): (r: Option<Attr>)
    ensures r.Some? <==> name in DisplayCodes
    ensures r.Some? ==> AttrName(r.value) == name
  {
    if name == "default" then Some(Default)
    else if name == "bright" then Some(Bright)
    else if name == "dim" then Some(Dim)
    else if name == "underline" then Some(Underline)
    else if name == "blink" then Some(Blink)
    else if name == "reverse" then Some(Reverse)
    else if name == "hidden" then Some(Hidden)
    else None
  }

  /** The colour a name of COLORS stands for. */
  function ParseColor(name: string): (r: Option<Color>)
    ensures r.Some? <==> name in Colors
    ensures r.Some? ==> ColorName(r.value) == name
  {
    if name == "black" then Some(Black)
    else if name == "red" then Some(Red)
    else if name == "green" then Some(Green)
    else if name == "yellow" then Some(Yellow)
    else if name == "blue" then Some(Blue)
    else if name == "magenta" then Some(Magenta)
    else if name == "cyan" then Some(Cyan)
    else if name == "white" then Some(White)
    else None
  }

  // ---------------------------------------------------------------- validation

  /** The `codes` argument: a bare string, or a list of strings. */
  datatype CodesArg = One(name: string) | Many(names: seq<string>)

  /** A bare string is treated as a one-element list. */
  function CodeList(codes: CodesArg): seq<string>
  {
    match codes
    case One(name) => [name]
    case Many(names) => names
  }

  /** The ValueError `formatcodes` raises, with the offending value. */
  datatype StyleError = BadDisplayValue(name: string) | BadColor(name: string)

  /** A validated style request: the values `formatcodes` returns. */
  datatype Request = Request(codes: seq<Attr>, fg: Option<Color>, bg: Option<Color>)

  predicate AllDisplayCodes(names: seq<string>)
  {
    forall i :: 0 <= i < |names| ==> names[i] in DisplayCodes
  }

  predicate ValidColor(c: Option<string>)
  {
    c.Some? ==> c.value in Colors
  }

  function AttrNames(codes: seq<Attr>): (names: seq<string>)
    ensures |names| == |codes|
    ensures forall i :: 0 <= i < |codes| ==> names[i] == AttrName(codes[i])
  {
    seq(|codes|, i requires 0 <= i < |codes| => AttrName(codes[i]))
  }

  /** The loop over `codes` in `formatcodes`: the first name outside DISPLAY_CODES raises. */
  function ParseAttrs(names: seq<string>): (r: Result<seq<Attr>, StyleError>)
    ensures r.Ok? <==> AllDisplayCodes(names)
    ensures r.Ok? ==> AttrNames(r.value) == names
    ensures r.Err? ==> exists k :: 0 <= k < |names| && names[k] !in DisplayCodes
                                   && r.error == BadDisplayValue(names[k])
                                   && AllDisplayCodes(names[..k])
  {
    if names == [] then Ok([])
    else match ParseAttr(names[0])
      case None => Err(BadDisplayValue(names[0]))
      case Some(a) =>
        match ParseAttrs(names[1..])
        case Err(e) =>
          FirstBadNameShifts(names, e);
          Err(e)
        case Ok(rest) =>
          assert AttrNames([a] + rest) == [AttrName(a)] + AttrNames(rest);
          Ok([a] + rest)
  }

  /** The first name outside DISPLAY_CODES, seen from the second name on, is the first from the start too. */
  lemma FirstBadNameShifts(names: seq<string>, e: StyleError)
    requires names != [] && names[0] in DisplayCodes
    requires exists k :: 0 <= k < |names| - 1 && names[1..][k] !in DisplayCodes && e == BadDisplayValue(names[1..][k])
                         && AllDisplayCodes(names[1..][..k])
    ensures exists k :: 0 <= k < |names| && names[k] !in DisplayCodes && e == BadDisplayValue(names[k])
                        && AllDisplayCodes(names[..k])
  {
    var j :| 0 <= j < |names| - 1 && names[1..][j] !in DisplayCodes && e == BadDisplayValue(names[1..][j])
             && AllDisplayCodes(names[1..][..j]);
    assert names[..j + 1] == [names[0]] + names[1..][..j];
    assert names[j + 1] == names[1..][j];
  }

  function ParseColorArg(c: Option<string>): (r: Result<Option<Color>, StyleError>)
    ensures r.Ok? <==> ValidColor(c)
    ensures r.Ok? ==> OptColorName(r.value) == c
    ensures r.Err? ==> r.error == BadColor(c.value)
  {
    match c
    case None => Ok(None)
    case Some(name) =>
      match ParseColor(name)
      case None => Err(BadColor(name))
      case Some(color) => Ok(Some(color))
  }

  /**
   * `Control.formatcodes`: accepts the request exactly when every code is a name of
   * DISPLAY_CODES and every colour given is a name of COLORS, returns the same values, and
   * otherwise raises for the first bad code, else for a bad fg, else for a bad bg.
   */
  function FormatCodes(codes: CodesArg, fg: Option<string>, bg: Option<string>): (r: Result<Request, StyleError>)
    ensures r.Ok? <==> AllDisplayCodes(CodeList(codes)) && ValidColor(fg) && ValidColor(bg)
    ensures r.Ok? ==> AttrNames(r.value.codes) == CodeList(codes)
                      && OptColorName(r.value.fg) == fg && OptColorName(r.value.bg) == bg
    ensures !AllDisplayCodes(CodeList(codes)) ==> r.Err? && r.error.BadDisplayValue?
                                                  && r.error.name !in DisplayCodes
    ensures AllDisplayCodes(CodeList(codes)) && !ValidColor(fg) ==> r == Err(BadColor(fg.value))
    ensures AllDisplayCodes(CodeList(codes)) && ValidColor(fg) && !ValidColor(bg)
            ==> r == Err(BadColor(bg.value))
  {
    match ParseAttrs(CodeList(codes))
    case Err(e) => Err(e)
    case Ok(attrs) =>
      match ParseColorArg(fg)
      case Err(e) => Err(e)
      case Ok(f) =>
        match ParseColorArg(bg)
        case Err(e) => Err(e)
        case Ok(b) => Ok(Request(attrs, f, b))
  }

  // ---------------------------------------------------------------- ANSI encoder

  /** `ANSI.CODES`: the SGR parameter of each attribute. */
  function AnsiCode(a: Attr): nat
  {
    match a
    case Default => 0
    case Bright => 1
    case Dim => 2
    case Underline => 4
    case Blink => 5
    case Reverse => 7
    case Hidden => 8
  }

  /** `ANSI.FG` and `ANSI.BG`: 30 and 40 plus the position in COLORS. */
  function AnsiFg(c: Color): nat { 30 + ColorIndex(c) }

  function AnsiBg(c: Color): nat { 40 + ColorIndex(c) }

  const Escape: char := '\U{1B}'

  /** `ANSI.CSI`, the control sequence introducer ESC [. */
  const Csi: string := [Escape, '[']

  /** `ANSI.RESET_CODE`, ESC c. */
  const ResetCode: string := [Escape, 'c']

  /** The SGR parameters of a request: attributes in request order, then fg, then bg. */
  function CodeNumbers(req: Request): seq<nat>
  {
    seq(|req.codes|, i requires 0 <= i < |req.codes| => AnsiCode(req.codes[i]))
    + (if req.fg.Some? then [AnsiFg(req.fg.value)] else [])
    + (if req.bg.Some? then [AnsiBg(req.bg.value)] else [])
  }

  function Decimals(ns: seq<nat>): (ds: seq<string>)
    ensures |ds| == |ns| && forall i :: 0 <= i < |ns| ==> ds[i] == Decimal(ns[i])
  {
    seq(|ns|, i requires 0 <= i < |ns| => Decimal(ns[i]))
  }

  /** The text between ESC [ and m: the parameters in decimal, separated by `;`. */
  function SgrBody(req: Request): string
  {
    Join(";", Decimals(CodeNumbers(req)))
  }

  function Encode(req: Request): string
  {
    Csi + SgrBody(req) + "m"
  }

  predicate IsBodyChar(c: char) { IsDigit(c) || c == ';' }

  predicate IsBody(s: string) { forall i :: 0 <= i < |s| ==> IsBodyChar(s[i]) }

  lemma {:induction false} JoinDecimalsIsBody(ds: seq<string>)
    requires forall i :: 0 <= i < |ds| ==> AllDigits(ds[i])
    ensures IsBody(Join(";", ds))
  {
    if |ds| > 1 {
      JoinDecimalsIsBody(ds[1..]);
    }
  }

  /**
   * `ANSI.displaycode`: raises exactly what `formatcodes` raises; otherwise the result is a
   * complete SGR sequence, ESC [ then digits and semicolons then m, whose parameters are
   * those of the validated request.
   */
  function DisplayCode(codes: CodesArg, fg: Option<string>, bg: Option<string>): (r: Result<string, StyleError>)
    ensures r.Err? <==> FormatCodes(codes, fg, bg).Err?
    ensures r.Err? ==> r.error == FormatCodes(codes, fg, bg).error
    ensures r.Ok? ==> |r.value| >= 3 && r.value[..2] == Csi && r.value[|r.value| - 1] == 'm'
                      && IsBody(r.value[2..|r.value| - 1])
    ensures r.Ok? ==> r.value[2..|r.value| - 1] == SgrBody(FormatCodes(codes, fg, bg).value)
  {
    match FormatCodes(codes, fg, bg)
    case Err(e) => Err(e)
    case Ok(req) =>
      var s := Encode(req);
      JoinDecimalsIsBody(Decimals(CodeNumbers(req)));
      assert s[2..|s| - 1] == SgrBody(req);
      Ok(s)
  }

  /** An empty request, `displaycode()`, gives ESC [ m. */
  lemma DisplayCodeEmpty()
    ensures DisplayCode(Many([]), None, None) == Ok([Escape, '[', 'm'])
  {
    var req := FormatCodes(Many([]), None, None).value;
    assert req == Request([], None, None);
    assert CodeNumbers(req) == [];
    assert Decimals([]) == [];
    assert SgrBody(req) == [];
    assert Encode(req) == [Escape, '[', 'm'];
  }

  // ---------------------------------------------------------------- ANSI decoder

  /** ValueError from `int(code)`, or IndexError from indexing DISPLAY_CODES. */
  datatype DecodeError = NotAnInteger(field: string) | NoSuchDisplayCode(number: nat)

  /** The dictionary `readcodes` returns: the keys 'codes', 'fg' and 'bg' when present. */
  datatype Decoded = Decoded(codes: Option<seq<string>>, fg: Option<string>, bg: Option<string>)

  /** Membership in `ANSI.FG.values()`, `ANSI.BG.values()` and `ANSI.CODES.values()`. */
  predicate IsFgNumber(n: nat) { 30 <= n <= 37 }

  predicate IsBgNumber(n: nat) { 40 <= n <= 47 }

  predicate IsAttrNumber(n: nat) { n == 0 || n == 1 || n == 2 || n == 4 || n == 5 || n == 7 || n == 8 }

  /** `int(code)` applied to each field in turn; the first failure is the one raised. */
  function ParseAll(fields: seq<string>): Result<seq<nat>, DecodeError>
  {
    if fields == [] then Ok([])
    else match ParseAll(fields[..|fields| - 1])
      case Err(e) => Err(e)
      case Ok(ns) =>
        match ParseDecimal(fields[|fields| - 1])
        case None => Err(NotAnInteger(fields[|fields| - 1]))
        case Some(n) => Ok(ns + [n])
  }

  /** The attribute numbers among `nums`, in order (`dcodes`). */
  function AttrNumbers(nums: seq<nat>): seq<nat>
  {
    if nums == [] then []
    else AttrNumbers(nums[..|nums| - 1]) + (if IsAttrNumber(nums[|nums| - 1]) then [nums[|nums| - 1]] else [])
  }

  /** The last foreground number among `nums`: the last one wins. */
  function LastFg(nums: seq<nat>): (r: Option<nat>)
    ensures r.Some? ==> IsFgNumber(r.value)
  {
    if nums == [] then None
    else if IsFgNumber(nums[|nums| - 1]) then Some(nums[|nums| - 1])
    else LastFg(nums[..|nums| - 1])
  }

  function LastBg(nums: seq<nat>): (r: Option<nat>)
    ensures r.Some? ==> IsBgNumber(r.value)
  {
    if nums == [] then None
    else if IsFgNumber(nums[|nums| - 1]) then LastBg(nums[..|nums| - 1])
    else if IsBgNumber(nums[|nums| - 1]) then Some(nums[|nums| - 1])
    else LastBg(nums[..|nums| - 1])
  }

  /** `[DISPLAY_CODES[c] for c in dcodes]`: indexes by the number, raising at the first c >= 7. */
  function DisplayNames(dcodes: seq<nat>): (r: Result<seq<string>, DecodeError>)
    ensures r.Err? ==> r.error.NoSuchDisplayCode?
  {
    if dcodes == [] then Ok([])
    else if dcodes[0] >= |DisplayCodes| then Err(NoSuchDisplayCode(dcodes[0]))
    else match DisplayNames(dcodes[1..])
      case Err(e) => Err(e)
      case Ok(rest) => Ok([DisplayCodes[dcodes[0]]] + rest)
  }

  /** `code % 10`, kept for the last colour number found. */
  function Residue(n: Option<nat>): (r: Option<nat>)
    ensures r.Some? == n.Some?
    ensures n.Some? && (IsFgNumber(n.value) || IsBgNumber(n.value)) ==> r.value < |Colors|
  {
    if n.Some? then Some(n.value % 10) else None
  }

  /** `COLORS[fg]` for the residue found, if any. */
  function ColorAt(i: Option<nat>): Option<string>
    requires i.Some? ==> i.value < |Colors|
  {
    if i.Some? then Some(Colors[i.value]) else None
  }

  /** The dictionary built after the loop, once every field parsed to `nums`. */
  function DecodeNumbers(nums: seq<nat>): Result<Decoded, DecodeError>
  {
    match DisplayNames(AttrNumbers(nums))
    case Err(e) => Err(e)
    case Ok(names) => Ok(Decoded(Some(names), ColorAt(Residue(LastFg(nums))), ColorAt(Residue(LastBg(nums)))))
  }

  /** What `ANSI.readcodes(fields)` returns or raises. */
  function DecodeFields(fields: seq<string>): Result<Decoded, DecodeError>
  {
    match ParseAll(fields)
    case Err(e) => Err(e)
    case Ok(nums) => if |fields| == 0 then Ok(Decoded(None, None, None)) else DecodeNumbers(nums)
  }

  lemma {:induction false} ParseAllFailureSticks(fields: seq<string>, k: nat)
    requires k <= |fields| && ParseAll(fields[..k]).Err?
    ensures ParseAll(fields) == ParseAll(fields[..k])
    decreases |fields| - k
  {
    if k < |fields| {
      assert fields[..k + 1][..k] == fields[..k];
      ParseAllFailureSticks(fields, k + 1);
    } else {
      assert fields[..k] == fields;
    }
  }

  /** One more field read: its number joins the parsed prefix and the classification. */
  lemma ReadStep(fields: seq<string>, i: nat, nums: seq<nat>, n: nat)
    requires i < |fields| && ParseAll(fields[..i]) == Ok(nums) && ParseDecimal(fields[i]) == Some(n)
    ensures ParseAll(fields[..i + 1]) == Ok(nums + [n])
    ensures AttrNumbers(nums + [n]) == AttrNumbers(nums) + (if IsAttrNumber(n) then [n] else [])
    ensures LastFg(nums + [n]) == if IsFgNumber(n) then Some(n) else LastFg(nums)
    ensures LastBg(nums + [n]) == if IsFgNumber(n) then LastBg(nums)
                                  else if IsBgNumber(n) then Some(n) else LastBg(nums)
  {
    assert fields[..i + 1][..i] == fields[..i];
    assert (nums + [n])[..|nums|] == nums;
  }

  /**
   * `ANSI.readcodes`: the loop over the fields accumulating `dcodes`, `fg` and `bg`,
   * followed by the dictionary it builds.
   */
  method ReadCodes(fields: seq<string>) returns (r: Result<Decoded, DecodeError>)
    ensures r == DecodeFields(fields)
  {
    var dcodes: seq<nat> := [];
    var fg: Option<nat> := None;
    var bg: Option<nat> := None;
    ghost var nums: seq<nat> := [];
    var i := 0;
    while i < |fields|
      invariant 0 <= i <= |fields|
      invariant ParseAll(fields[..i]) == Ok(nums)
      invariant dcodes == AttrNumbers(nums)
      invariant fg == Residue(LastFg(nums)) && bg == Residue(LastBg(nums))
    {
      var code := ParseDecimal(fields[i]);
      if code.None? {
        assert fields[..i + 1][..i] == fields[..i];
        ParseAllFailureSticks(fields, i + 1);
        return Err(NotAnInteger(fields[i]));
      }
      var n := code.value;
      ReadStep(fields, i, nums, n);
      if IsFgNumber(n) {
        fg := Some(n % 10);
      } else if IsBgNumber(n) {
        bg := Some(n % 10);
      } else if IsAttrNumber(n) {
        dcodes := dcodes + [n];
      }
      nums := nums + [n];
      i := i + 1;
    }
    assert fields[..i] == fields;
    if |fields| == 0 {
      return Ok(Decoded(None, None, None));
    }
    var names := DisplayNames(dcodes);
    if names.Err? {
      return Err(names.error);
    }
    return Ok(Decoded(Some(names.value), ColorAt(fg), ColorAt(bg)));
  }

  // ---------------------------------------------------------------- backend selection

  /** The controller classes `get_wrapper` can return. */
  datatype Backend = Basic | Ansi | WinCTypes

  /** `Win32()` fails: its constructor names an undefined global `STD_OUTPUT_HANDLE`. */
  datatype WrapperError = UndefinedName(name: string)

  const AnsiTerminals: seq<string> := ["linux", "xterm", "rxvt"]

  predicate IsAnsiTerminal(term: Option<string>) { term.Some? && term.value in AnsiTerminals }

  /**
   * `get_wrapper`, with the environment made explicit: the TERM variable, `sys.platform`,
   * and whether `ctypes` and `win32console` can be imported. A linux, xterm or rxvt terminal
   * gets ANSI whatever the platform; otherwise a win32 platform gets the ctypes console
   * controller, or fails in `Win32()`, or falls back to the basic controller; elsewhere
   * cygwin gets ANSI and everything else the basic controller.
   */
  function GetWrapper(term: Option<string>, platform: string, hasCTypes: bool, hasWin32Console: bool): (r: Result<Backend, WrapperError>)
    ensures r == Ok(Ansi) <==> IsAnsiTerminal(term) || (!Contains(platform, "win32") && term == Some("cygwin"))
    ensures r == Ok(WinCTypes) <==> !IsAnsiTerminal(term) && Contains(platform, "win32") && hasCTypes
    ensures r.Err? <==> !IsAnsiTerminal(term) && Contains(platform, "win32") && !hasCTypes && hasWin32Console
  {
    if term.Some? && term.value in AnsiTerminals then Ok(Ansi)
    else if Contains(platform, "win32") then
      if hasCTypes then Ok(WinCTypes)
      else if hasWin32Console then Err(UndefinedName("STD_OUTPUT_HANDLE"))
      else Ok(Basic)
    else if term == Some("cygwin") then Ok(Ansi)
    else Ok(Basic)
  }
  // ---------------------------------------------------------------- decoder properties

  lemma {:induction false} ParseAllDecimals(ns: seq<nat>)
    ensures ParseAll(Decimals(ns)) == Ok(ns)
  {
    if ns != [] {
      var ds := Decimals(ns);
      assert ds[..|ds| - 1] == Decimals(ns[..|ns| - 1]);
      ParseAllDecimals(ns[..|ns| - 1]);
      ParseDecimalOfDecimal(ns[|ns| - 1]);
      assert ns[..|ns| - 1] + [ns[|ns| - 1]] == ns;
    }
  }

  /** An attribute's number read back through DISPLAY_CODES, as `readcodes` indexes it. */
  function ReadBackName(a: Attr): string
    requires a != Reverse && a != Hidden
  {
    match a
    case Default => "default"
    case Bright => "bright"
    case Dim => "dim"
    case Underline => "blink"
    case Blink => "reverse"
  }

  predicate Readable(codes: seq<Attr>)
  {
    forall i :: 0 <= i < |codes| ==> codes[i] != Reverse && codes[i] != Hidden
  }

  function ReadBackNames(codes: seq<Attr>): seq<string>
    requires Readable(codes)
  {
    seq(|codes|, i requires 0 <= i < |codes| => ReadBackName(codes[i]))
  }

  function AnsiCodes(codes: seq<Attr>): (ns: seq<nat>)
    ensures |ns| == |codes| && forall i :: 0 <= i < |codes| ==> ns[i] == AnsiCode(codes[i])
  {
    seq(|codes|, i requires 0 <= i < |codes| => AnsiCode(codes[i]))
  }

  lemma {:induction false} AttrNumbersOfCodes(codes: seq<Attr>)
    ensures AttrNumbers(AnsiCodes(codes)) == AnsiCodes(codes)
    ensures LastFg(AnsiCodes(codes)) == None && LastBg(AnsiCodes(codes)) == None
  {
    if codes != [] {
      var ns := AnsiCodes(codes);
      assert ns[..|ns| - 1] == AnsiCodes(codes[..|codes| - 1]);
      AttrNumbersOfCodes(codes[..|codes| - 1]);
    }
  }

  lemma {:induction false} DisplayNamesOfCodes(codes: seq<Attr>)
    ensures DisplayNames(AnsiCodes(codes)).Ok? <==> Readable(codes)
    ensures Readable(codes) ==> DisplayNames(AnsiCodes(codes)) == Ok(ReadBackNames(codes))
    ensures !Readable(codes) ==> DisplayNames(AnsiCodes(codes)).error.NoSuchDisplayCode?
                                 && DisplayNames(AnsiCodes(codes)).error.number in {7, 8}
  {
    if codes != [] {
      assert AnsiCodes(codes)[1..] == AnsiCodes(codes[1..]);
      DisplayNamesOfCodes(codes[1..]);
      if Readable(codes) {
        assert ReadBackNames(codes) == [ReadBackName(codes[0])] + ReadBackNames(codes[1..]);
      }
    }
  }

  lemma ReadStepNumbers(nums: seq<nat>, n: nat)
    ensures AttrNumbers(nums + [n]) == AttrNumbers(nums) + (if IsAttrNumber(n) then [n] else [])
    ensures LastFg(nums + [n]) == if IsFgNumber(n) then Some(n) else LastFg(nums)
    ensures LastBg(nums + [n]) == if IsFgNumber(n) then LastBg(nums)
                                  else if IsBgNumber(n) then Some(n) else LastBg(nums)
  {
    assert (nums + [n])[..|nums|] == nums;
  }

  /**
   * Decoding the body of what `displaycode` produced: fg and bg come back exactly, and
   * each attribute comes back as DISPLAY_CODES indexed by its number (underline as blink,
   * blink as reverse), except that reverse (7) and hidden (8) raise IndexError.
   */
  lemma ReadCodesOfDisplayCode(req: Request)
    requires CodeNumbers(req) != []
    ensures var d := DecodeFields(Split(SgrBody(req), ';'));
            && (d.Ok? <==> Readable(req.codes))
            && (d.Ok? ==> d.value == Decoded(Some(ReadBackNames(req.codes)), OptColorName(req.fg), OptColorName(req.bg)))
            && (d.Err? ==> d.error.NoSuchDisplayCode? && d.error.number in {7, 8})
  {
    var ns := CodeNumbers(req);
    var ds := Decimals(ns);
    forall i | 0 <= i < |ds| ensures ';' !in ds[i] {
      assert AllDigits(ds[i]);
    }
    SplitJoin(ds, ';');
    ParseAllDecimals(ns);
    DecodeOfParsed(ds, ns);
    ClassifyRequestNumbers(req);
    DisplayNamesOfCodes(req.codes);
  }

  lemma DecodeOfParsed(fields: seq<string>, nums: seq<nat>)
    requires |fields| > 0 && ParseAll(fields) == Ok(nums)
    ensures DecodeFields(fields) == DecodeNumbers(nums)
  {
  }

  /** The numbers of an encoded request classify back into its attributes, fg and bg. */
  lemma ClassifyRequestNumbers(req: Request)
    ensures AttrNumbers(CodeNumbers(req)) == AnsiCodes(req.codes)
    ensures ColorAt(Residue(LastFg(CodeNumbers(req)))) == OptColorName(req.fg)
    ensures ColorAt(Residue(LastBg(CodeNumbers(req)))) == OptColorName(req.bg)
  {
    AttrNumbersOfCodes(req.codes);
    CodeNumbersAppend(req);
    if req.fg.Some? {
      ColourResidue(req.fg.value);
    }
    if req.bg.Some? {
      ColourResidue(req.bg.value);
    }
  }

  lemma CodeNumbersAppend(req: Request)
    ensures CodeNumbers(req)
            == AppendColour(AppendColour(AnsiCodes(req.codes), if req.fg.Some? then Some(AnsiFg(req.fg.value)) else None),
                            if req.bg.Some? then Some(AnsiBg(req.bg.value)) else None)
  {
  }

  lemma ColourResidue(c: Color)
    ensures AnsiFg(c) % 10 == ColorIndex(c) && AnsiBg(c) % 10 == ColorIndex(c)
  {
  }

  /** `ns` followed by the colour number `c`, if there is one. */
  function AppendColour(ns: seq<nat>, c: Option<nat>): (r: seq<nat>)
    requires c.Some? ==> IsFgNumber(c.value) || IsBgNumber(c.value)
    ensures AttrNumbers(r) == AttrNumbers(ns)
    ensures LastFg(r) == if c.Some? && IsFgNumber(c.value) then c else LastFg(ns)
    ensures LastBg(r) == if c.Some? && IsBgNumber(c.value) then c else LastBg(ns)
  {
    if c.Some? then
      ReadStepNumbers(ns, c.value);
      assert AttrNumbers(ns) + [] == AttrNumbers(ns);
      ns + [c.value]
    else ns
  }


  /** Attributes drawn from default, bright and dim, and both colours, survive the round trip. */
  lemma ReadCodesRecoversRequest(req: Request)
    requires CodeNumbers(req) != []
    requires forall i :: 0 <= i < |req.codes| ==> req.codes[i] in {Default, Bright, Dim}
    ensures DecodeFields(Split(SgrBody(req), ';'))
            == Ok(Decoded(Some(AttrNames(req.codes)), OptColorName(req.fg), OptColorName(req.bg)))
  {
    ReadCodesOfDisplayCode(req);
    assert ReadBackNames(req.codes) == AttrNames(req.codes);
  }

  /** A number in none of the three tables is dropped without changing the result. */
  lemma DropsUnknownNumber(fields: seq<string>, f: string, n: nat)
    requires |fields| > 0 && ParseDecimal(f) == Some(n)
    requires !IsFgNumber(n) && !IsBgNumber(n) && !IsAttrNumber(n)
    ensures DecodeFields(fields + [f]) == DecodeFields(fields)
  {
    AppendField(fields, f, n);
    if ParseAll(fields).Ok? {
      var nums := ParseAll(fields).value;
      ReadStepNumbers(nums, n);
      assert AttrNumbers(nums + [n]) == AttrNumbers(nums) + [] == AttrNumbers(nums);
      DecodeOfParsed(fields, nums);

      DecodeOfParsed(fields + [f], nums + [n]);
    }
  }

  lemma AppendField(fields: seq<string>, f: string, n: nat)
    requires ParseDecimal(f) == Some(n)
    ensures ParseAll(fields + [f]) == if ParseAll(fields).Err? then ParseAll(fields)
                                      else Ok(ParseAll(fields).value + [n])
  {
    var g := fields + [f];
    assert g[..|g| - 1] == fields && g[|g| - 1] == f;
  }

  /** A later foreground number replaces any earlier one; nothing else changes. */
  lemma LastForegroundWins(fields: seq<string>, f: string, n: nat)
    requires |fields| > 0 && ParseDecimal(f) == Some(n) && IsFgNumber(n)
    requires DecodeFields(fields).Ok?
    ensures DecodeFields(fields + [f]) == Ok(DecodeFields(fields).value.(fg := Some(Colors[n % 10])))
  {
    AppendField(fields, f, n);
    var nums := ParseAll(fields).value;
    ReadStepNumbers(nums, n);
    assert AttrNumbers(nums + [n]) == AttrNumbers(nums) + [] == AttrNumbers(nums);
    DecodeOfParsed(fields, nums);
    DecodeOfParsed(fields + [f], nums + [n]);
  }

  /** A later background number replaces any earlier one; nothing else changes. */
  lemma LastBackgroundWins(fields: seq<string>, f: string, n: nat)
    requires |fields| > 0 && ParseDecimal(f) == Some(n) && IsBgNumber(n)
    requires DecodeFields(fields).Ok?
    ensures DecodeFields(fields + [f]) == Ok(DecodeFields(fields).value.(bg := Some(Colors[n % 10])))
  {
    AppendField(fields, f, n);
    var nums := ParseAll(fields).value;
    ReadStepNumbers(nums, n);
    assert AttrNumbers(nums + [n]) == AttrNumbers(nums) + [] == AttrNumbers(nums);
    DecodeOfParsed(fields, nums);
    DecodeOfParsed(fields + [f], nums + [n]);
  }

  lemma {:induction false} ParseAllFails(fields: seq<string>)
    ensures ParseAll(fields).Err? <==> exists i :: 0 <= i < |fields| && ParseDecimal(fields[i]) == None
    ensures ParseAll(fields).Err? ==> ParseAll(fields).error.NotAnInteger?
                                      && ParseDecimal(ParseAll(fields).error.field) == None
                                      && ParseAll(fields).error.field in fields
  {
    if fields != [] {
      var init := fields[..|fields| - 1];
      ParseAllFails(init);
      assert forall i :: 0 <= i < |init| ==> init[i] == fields[i];
    }
  }

  lemma {:induction false} SplitBodyFields(body: string)
    requires IsBody(body)
    ensures forall i :: 0 <= i < |Split(body, ';')| ==> AllDigits(Split(body, ';')[i])
    decreases |body|
  {
    if body != [] {
      SplitBodyFields(body[1..]);
    }
  }

  /**
   * On a marker body of digits and semicolons, `readcodes` of its fields raises ValueError
   * exactly when some field is empty (as in `1;;2` or `1;`), and the field it fails on is
   * an empty one.
   */
  lemma EmptyFieldRaises(body: string)
    requires IsBody(body)
    ensures var d := DecodeFields(Split(body, ';'));
            && (d.Err? && d.error.NotAnInteger? <==> [] in Split(body, ';'))
            && (d.Err? && d.error.NotAnInteger? ==> d.error.field == [])
  {
    var fields := Split(body, ';');
    SplitBodyFields(body);
    ParseAllFails(fields);
    if [] in fields {
      var k :| 0 <= k < |fields| && fields[k] == [];
      assert ParseDecimal(fields[k]) == None;
    }
    var d := DecodeFields(fields);
    if ParseAll(fields).Err? {
      var e := ParseAll(fields).error;
      assert d == Err(e);
      var k :| 0 <= k < |fields| && fields[k] == e.field;
      assert AllDigits(fields[k]);
    } else {
      DecodeOfParsed(fields, ParseAll(fields).value);

    }

  }
}
