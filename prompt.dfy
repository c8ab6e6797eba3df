/**
 * The interactive helpers of the terminal library (libs/terminate/prompt/__init__.py):
 * `input_object`, which reads lines until a cast accepts one, and `query`, which offers a
 * set of answers, prints them in colour and matches the reply against them. Input is a
 * finite sequence of lines (running out of lines is EOFError), and what is written to
 * the library's standard output stream is the sequence of texts passed to its `write`.
 */
module Prompt {
  import opened Wrappers
  import opened Strings
  import opened Control
  import opened Abstract

  /** `os.linesep`, on a POSIX system. */
  const LineSep: string := "\n"

  const Bell: char := '\U{07}'

  // ---------------------------------------------------------------- error message

  /** `color('bright', 'red')`, the marker that opens an error message. */
  const ErrorStyle: string := [Escape, '[', '1', ';', '3', '1', 'm']

  /** `color('default')`. */
  const DefaultStyle: string := [Escape, '[', '0', 'm']

  lemma BrightRedRequest()
    ensures FormatCodes(One("bright"), Some("red"), None) == Ok(Request([Bright], Some(Red), None))
  {
    var names := ["bright"];
    assert ParseAttr(names[0]) == Some(Bright);
    assert names[1..] == [];
    assert ParseAttrs(names[1..]) == Ok([]);
    assert [Bright] + [] == [Bright];
    assert ParseAttrs(names) == Ok([Bright]);
    assert ParseColorArg(Some("red")) == Ok(Some(Red));
  }

  lemma BrightRedBody()
    ensures SgrBody(Request([Bright], Some(Red), None)) == "1;31"
  {
    var req := Request([Bright], Some(Red), None);
    assert CodeNumbers(req) == [1, 31];
    assert Decimal(31) == Decimal(3) + [DigitChar(1)];
    var ds := Decimals([1, 31]);
    assert ds[0] == "1" && ds[1] == "31";
    assert ds[1..] == ["31"];
    assert Join(";", ds) == ds[0] + ";" + Join(";", ds[1..]);
  }

  lemma DefaultRequest()
    ensures FormatCodes(One("default"), None, None) == Ok(Request([Default], None, None))
  {
    var names := ["default"];
    assert ParseAttr(names[0]) == Some(Default);
    assert names[1..] == [];
    assert ParseAttrs(names[1..]) == Ok([]);
    assert [Default] + [] == [Default];
    assert ParseAttrs(names) == Ok([Default]);
  }

  lemma DefaultBody()
    ensures SgrBody(Request([Default], None, None)) == "0"
  {
    assert CodeNumbers(Request([Default], None, None)) == [0];
    assert Decimals([0]) == ["0"];
  }

  lemma ErrorStyleIsMarker()
    ensures ErrorStyle == MarkerText(false, "1;31", false)
  {
    assert MarkerText(false, "1;31", false) == Csi + "1;31" + "m";
  }

  lemma DefaultStyleIsMarker()
    ensures DefaultStyle == MarkerText(false, "0", false)
  {
    assert MarkerText(false, "0", false) == Csi + "0" + "m";
  }

  /** The two markers of an error message are `color('bright', 'red')` and `color('default')`. */
  lemma StyleMarkers()
    ensures ColorMarker(One("bright"), Some("red"), None) == Ok(ErrorStyle)
    ensures ColorMarker(One("default"), None, None) == Ok(DefaultStyle)
    ensures ErrorStyle == MarkerText(false, "1;31", false)
    ensures DefaultStyle == MarkerText(false, "0", false)
  {
    BrightRedRequest();
    BrightRedBody();
    ErrorStyleIsMarker();
    DefaultRequest();
    DefaultBody();
    DefaultStyleIsMarker();
  }

  /** `ERROR_MESSAGE % msg`. */
  function ErrorMessage(msg: string): string
  {
    ErrorStyle + "Error: " + DefaultStyle + (msg + [Bell] + LineSep)
  }

  /** Text that holds no part of a marker: no ESC, and neither of the bytes around one. */
  predicate Unmarked(s: string)
  {
    Escape !in s && StartOfHeading !in s && StartOfText !in s
  }

  /** Once its markers are taken out by the output stream, an error message reads plainly. */
  lemma ErrorMessageVisible(msg: string)
    requires Unmarked(msg)
    ensures Stripped(ErrorMessage(msg)) == "Error: " + msg + [Bell] + LineSep
  {
    ErrorStyleIsMarker();
    DefaultStyleIsMarker();
    var tail := msg + [Bell] + LineSep;
    assert Unmarked(tail);
    PlainTextUnchanged(tail);
    StyledStripped("1;31", "Error: ", "0", tail);
  }

  /** Of text between two markers, only the text remains once they are taken out. */
  lemma StyledStripped(b1: string, p: string, b2: string, rest: string)
    requires IsBody(b1) && IsBody(b2) && Unmarked(p)
    requires rest == [] || rest[0] != StartOfText
    ensures Stripped(MarkerText(false, b1, false) + p + MarkerText(false, b2, false) + rest) == p + Stripped(rest)
  {
    var m1 := MarkerText(false, b1, false);
    var m2 := MarkerText(false, b2, false);
    Regroup(m1 + p, m2, rest);
    Regroup(m1, p, m2 + rest);
    MarkerSplits(false, b2, false, rest);
    PlainPrefix(p, m2 + rest);
    assert p == [] || p[0] != StartOfText;
    MarkerSplits(false, b1, false, p + (m2 + rest));
  }

  // ---------------------------------------------------------------- answers

  /** A Python object offered as an answer: a string, or any other object shown by `str`. */
  datatype Value = Str(s: string) | Other(shown: string)

  /** `str(a)`. */
  function Show(a: Value): string
  {
    match a
    case Str(s) => s
    case Other(shown) => shown
  }

  /** An answer dictionary: its 'values', 'fg', 'bg' and 'desc' keys, where present. */
  datatype Item = Item(values: Option<seq<Value>>, fg: Option<string>, bg: Option<string>, desc: Option<string>)

  /** An element of `answers`: a dictionary, or a bare value. */
  datatype Answer = Plain(value: Value) | Dict(item: Item)

  /** The dictionary an answer stands for: a bare value `a` is `{'values': [a]}`. */
  function Normalized(a: Answer): Item
  {
    match a
    case Dict(item) => item
    case Plain(v) => Item(Some([v]), None, None, None)
  }

  /** Normalizing an already normalized answer changes nothing. */
  lemma NormalizedIsStable(a: Answer)
    ensures Normalized(Dict(Normalized(a))) == Normalized(a)
    ensures a.Plain? ==> Normalized(a).values == Some([a.value])
  {
  }

  /**
   * The loop at the top of `query`: every element that is not a dictionary is replaced,
   * in place, by the dictionary whose only value it is; order and length are kept.
   */
  method Normalize(answers: array<Answer>)
    modifies answers
    ensures forall i :: 0 <= i < answers.Length ==> answers[i] == Dict(Normalized(old(answers[i])))
  {
    for i := 0 to answers.Length
      invariant forall k :: 0 <= k < i ==> answers[k] == Dict(Normalized(old(answers[k])))
      invariant forall k :: i <= k < answers.Length ==> answers[k] == old(answers[k])
    {
      if answers[i].Plain? {
        answers[i] := Dict(Item(Some([answers[i].value]), None, None, None));
      }
    }
  }

  function ItemsOf(answers: seq<Answer>): (items: seq<Item>)
    ensures |items| == |answers| && forall i :: 0 <= i < |answers| ==> items[i] == Normalized(answers[i])
  {
    seq(|answers|, i requires 0 <= i < |answers| => Normalized(answers[i]))
  }

  // ---------------------------------------------------------------- the prompt

  /** What building the prompt raises: ValueError from `color`, KeyError, or IndexError. */
  datatype QueryError = BadStyle(styleError: StyleError) | MissingKey(key: string) | NoValues | InputExhausted

  /**
   * One entry of `answerslist`: the first value in bright and in the answer's colours,
   * then `color('default')`, then ' : ' and the description in list mode. The parts are
   * evaluated left to right, so the first of them that raises decides the error.
   */
  function Label(item: Item, listValues: bool): (r: Result<string, QueryError>)
  {
    match ColorMarker(One("bright"), item.fg, item.bg)
    case Err(e) => Err(BadStyle(e))
    case Ok(start) =>
      if item.values.None? then Err(MissingKey("values"))
      else if item.values.value == [] then Err(NoValues)
      else
        var shown := start + Show(item.values.value[0]) + DefaultStyle;
        if !listValues then Ok(shown)
        else if item.desc.None? then Err(MissingKey("desc"))
        else Ok(shown + " : " + item.desc.value)
  }

  /** The results in order, or the first error among them. */
  function Collect<T, E>(rs: seq<Result<T, E>>): (r: Result<seq<T>, E>)
    ensures r.Ok? ==> |r.value| == |rs|
  {
    if rs == [] then Ok([])
    else match Collect(rs[..|rs| - 1])
      case Err(e) => Err(e)
      case Ok(done) =>
        (match rs[|rs| - 1]
         case Err(e) => Err(e)
         case Ok(v) => Ok(done + [v]))
  }

  /**
   * Collecting fails exactly when some result is an error, and with the first error;
   * otherwise it holds every value, in order.
   */
  lemma {:induction false} CollectFailsAtFirst<T, E>(rs: seq<Result<T, E>>)
    ensures var r := Collect(rs);
            && (r.Err? <==> exists k :: 0 <= k < |rs| && rs[k].Err?)
            && (r.Err? ==> exists k :: 0 <= k < |rs| && rs[k] == Err(r.error)
                                     && forall j :: 0 <= j < k ==> rs[j].Ok?)
            && (r.Ok? ==> forall k :: 0 <= k < |rs| ==> rs[k] == Ok(r.value[k]))
  {
    if rs != [] {
      var init := rs[..|rs| - 1];
      CollectFailsAtFirst(init);
      assert forall k :: 0 <= k < |init| ==> init[k] == rs[k];
    }
  }

  /** The label of every item, in order. */
  function LabelResults(items: seq<Item>, listValues: bool): (rs: seq<Result<string, QueryError>>)
    ensures |rs| == |items| && forall k :: 0 <= k < |items| ==> rs[k] == Label(items[k], listValues)
  {
    seq(|items|, k requires 0 <= k < |items| => Label(items[k], listValues))
  }

  /** The loop building `answerslist`: the first item that raises ends it. */
  function Labels(items: seq<Item>, listValues: bool): Result<seq<string>, QueryError>
  {
    Collect(LabelResults(items, listValues))
  }

  /** The prompt `query` writes: the labels on lines of their own, or in brackets separated by '/'. */
  function PromptText(promptText: string, items: seq<Item>, listValues: bool): Result<string, QueryError>
  {
    match Labels(items, listValues)
    case Err(e) => Err(e)
    case Ok(labels) =>
      if listValues then Ok(promptText + LineSep + Join(LineSep, labels) + LineSep)
      else Ok(promptText + "[" + Join("/", labels) + "]")
  }

  /**
   * Building the prompt fails exactly when some item's label fails, and with the error of
   * the first such item; otherwise every label is that item's.
   */
  lemma LabelsFailAtFirst(items: seq<Item>, listValues: bool)
    ensures var r := Labels(items, listValues);
            && (r.Err? <==> exists k :: 0 <= k < |items| && Label(items[k], listValues).Err?)
            && (r.Err? ==> exists k :: 0 <= k < |items| && Label(items[k], listValues) == Err(r.error)
                                     && forall j :: 0 <= j < k ==> Label(items[j], listValues).Ok?)
            && (r.Ok? ==> |r.value| == |items|
                          && forall k :: 0 <= k < |items| ==> Label(items[k], listValues) == Ok(r.value[k]))
  {
    CollectFailsAtFirst(LabelResults(items, listValues));
  }

  /**
   * The two loops that append to `answerslist`, over the answers once normalized, and the
   * prompt they extend.
   */
  method BuildPrompt(promptText: string, answers: array<Answer>, listValues: bool) returns (r: Result<string, QueryError>)
    requires forall i :: 0 <= i < answers.Length ==> answers[i].Dict?
    ensures r == PromptText(promptText, ItemsOf(answers[..]), listValues)
  {
    ghost var items := ItemsOf(answers[..]);
    var answerslist: seq<string> := [];
    for k := 0 to answers.Length
      invariant Labels(items[..k], listValues) == Ok(answerslist)
    {
      var entry := Label(answers[k].item, listValues);
      assert answers[k].item == items[k];
      LabelsExtend(items, k, listValues);
      if entry.Err? {
        LabelsErrorSticks(items, k + 1, listValues);
        return Err(entry.error);
      }
      answerslist := answerslist + [entry.value];
    }
    assert items[..answers.Length] == items;
    if listValues {
      r := Ok(promptText + LineSep + Join(LineSep, answerslist) + LineSep);
    } else {
      r := Ok(promptText + "[" + Join("/", answerslist) + "]");
    }
  }

  /** One more item: its label is appended, unless it or an earlier one fails. */
  lemma LabelsExtend(items: seq<Item>, k: nat, listValues: bool)
    requires k < |items|
    ensures Labels(items[..k + 1], listValues)
            == match Labels(items[..k], listValues)
               case Err(e) => Err(e)
               case Ok(labels) =>
                 (match Label(items[k], listValues)
                  case Err(e) => Err(e)
                  case Ok(entry) => Ok(labels + [entry]))
  {
    var rs := LabelResults(items[..k + 1], listValues);
    assert rs[..|rs| - 1] == LabelResults(items[..k], listValues);
  }

  /** Once a label fails, building the prompt fails with that error. */
  lemma {:induction false} LabelsErrorSticks(items: seq<Item>, k: nat, listValues: bool)
    requires k <= |items| && Labels(items[..k], listValues).Err?
    ensures Labels(items, listValues) == Labels(items[..k], listValues)
    decreases |items| - k
  {
    if k == |items| {
      assert items[..k] == items;
    } else {
      LabelsExtend(items, k, listValues);
      LabelsErrorSticks(items, k + 1, listValues);
    }
  }

  // ---------------------------------------------------------------- what the prompt shows

  /** An item whose label can be shown plainly: valid colours, a first value, a description in list mode. */
  predicate Displayable(item: Item, listValues: bool)
  {
    && ValidColor(item.fg) && ValidColor(item.bg)
    && item.values.Some? && item.values.value != [] && Unmarked(Show(item.values.value[0]))
    && (listValues ==> item.desc.Some? && Unmarked(item.desc.value))
  }

  /** The SGR body of `color('bright', fg, bg)` for an item. */
  function LabelBody(item: Item): string
  {
    match FormatCodes(One("bright"), item.fg, item.bg)
    case Ok(req) => SgrBody(req)
    case Err(_) => []
  }

  /** `str(values[0])`, where there is a first value. */
  function FirstShown(item: Item): string
  {
    if item.values.Some? && item.values.value != [] then Show(item.values.value[0]) else []
  }

  /** What follows `color('default')` in a label: the description, in list mode. */
  function Description(item: Item, listValues: bool): string
  {
    if listValues && item.desc.Some? then " : " + item.desc.value else []
  }

  /** A label with its markers taken out. */
  function Visible(item: Item, listValues: bool): string
  {
    FirstShown(item) + Description(item, listValues)
  }

  lemma BrightIsValid(fg: Option<string>, bg: Option<string>)
    requires ValidColor(fg) && ValidColor(bg)
    ensures FormatCodes(One("bright"), fg, bg).Ok?
  {
    assert ParseAttr("bright") == Some(Bright);
    assert CodeList(One("bright"))[0] == "bright";
  }

  /** The label of a displayable item: its marker, its first value, `color('default')`, its description. */
  lemma LabelShape(item: Item, listValues: bool)
    requires Displayable(item, listValues)
    ensures Label(item, listValues).Ok?
    ensures StyledEntry(Label(item, listValues).value, LabelBody(item), FirstShown(item), Description(item, listValues))
  {
    BrightIsValid(item.fg, item.bg);
    var req := FormatCodes(One("bright"), item.fg, item.bg).value;
    JoinDecimalsIsBody(Decimals(CodeNumbers(req)));
    var shown := MarkerText(false, LabelBody(item), false) + FirstShown(item) + DefaultStyle;
    assert shown + [] == shown;
  }

  /** A label made of a marker, the shown value, `color('default')` and plain text after it. */
  predicate StyledEntry(entry: string, body: string, shown: string, after: string)
  {
    entry == MarkerText(false, body, false) + shown + DefaultStyle + after
    && IsBody(body) && Unmarked(shown) && Unmarked(after)
  }

  /** Taking the markers out of a label keeps its value and what follows. */
  lemma EntryStripped(entry: string, body: string, shown: string, after: string, x: string)
    requires StyledEntry(entry, body, shown, after)
    requires x == [] || x[0] != StartOfText
    ensures Stripped(entry + x) == shown + after + Stripped(x)
  {
    Regroup(MarkerText(false, body, false) + shown + DefaultStyle, after, x);
    PlainPrefix(after, x);
    ValueThenDefault(body, shown, after + x);
    Regroup(shown, after, Stripped(x));
  }

  /** A marker, plain text and `color('default')` before `rest`: only the text stays. */
  lemma ValueThenDefault(body: string, shown: string, rest: string)
    requires IsBody(body) && Unmarked(shown)
    requires rest == [] || rest[0] != StartOfText
    ensures Stripped(MarkerText(false, body, false) + shown + DefaultStyle + rest) == shown + Stripped(rest)
  {
    DefaultStyleIsMarker();
    StyledStripped(body, shown, "0", rest);
  }

  predicate StyledEntries(entries: seq<string>, bodies: seq<string>, shown: seq<string>,
                          after: seq<string>, visible: seq<string>)
  {
    && |bodies| == |entries| && |shown| == |entries| && |after| == |entries| && |visible| == |entries|
    && forall i :: 0 <= i < |entries| ==>
         StyledEntry(entries[i], bodies[i], shown[i], after[i]) && visible[i] == shown[i] + after[i]
  }

  /**
   * Labels joined by a plain separator and followed by plain text: taking the markers out
   * leaves the visible labels joined the same way.
   */
  lemma {:induction false} JoinedLabelsStripped(entries: seq<string>, bodies: seq<string>, shown: seq<string>,
                                                after: seq<string>, visible: seq<string>, sep: string, tail: string)
    requires StyledEntries(entries, bodies, shown, after, visible)
    requires sep != [] && Unmarked(sep) && Unmarked(tail)
    ensures Stripped(Join(sep, entries) + tail) == Join(sep, visible) + tail
  {
    if entries == [] {
      PlainTextUnchanged(tail);
      assert Join(sep, entries) + tail == tail;
    } else if |entries| == 1 {
      PlainTextUnchanged(tail);
      EntryStripped(entries[0], bodies[0], shown[0], after[0], tail);
    } else {
      var rest, vrest := Join(sep, entries[1..]), Join(sep, visible[1..]);
      assert Stripped(rest + tail) == vrest + tail by {
        assert StyledEntries(entries[1..], bodies[1..], shown[1..], after[1..], visible[1..]);
        JoinedLabelsStripped(entries[1..], bodies[1..], shown[1..], after[1..], visible[1..], sep, tail);
      }
      var x := sep + (rest + tail);
      assert Stripped(x) == sep + (vrest + tail) && x[0] != StartOfText by {
        PlainPrefix(sep, rest + tail);
      }
      assert Stripped(entries[0] + x) == shown[0] + after[0] + Stripped(x) by {
        assert StyledEntry(entries[0], bodies[0], shown[0], after[0]);
        EntryStripped(entries[0], bodies[0], shown[0], after[0], x);
      }
      assert Join(sep, entries) + tail == entries[0] + x by {
        Regroup(entries[0], sep, rest);
        Regroup(entries[0] + sep, rest, tail);
        Regroup(entries[0], sep, rest + tail);
      }
      assert Join(sep, visible) + tail == visible[0] + (sep + (vrest + tail)) by {
        Regroup(visible[0], sep, vrest);
        Regroup(visible[0] + sep, vrest, tail);
        Regroup(visible[0], sep, vrest + tail);
      }
    }
  }

  function Bodies(items: seq<Item>): (r: seq<string>)
    ensures |r| == |items| && forall k :: 0 <= k < |items| ==> r[k] == LabelBody(items[k])
  {
    seq(|items|, k requires 0 <= k < |items| => LabelBody(items[k]))
  }

  function FirstsShown(items: seq<Item>): (r: seq<string>)
    ensures |r| == |items| && forall k :: 0 <= k < |items| ==> r[k] == FirstShown(items[k])
  {
    seq(|items|, k requires 0 <= k < |items| => FirstShown(items[k]))
  }

  function Descriptions(items: seq<Item>, listValues: bool): (r: seq<string>)
    ensures |r| == |items| && forall k :: 0 <= k < |items| ==> r[k] == Description(items[k], listValues)
  {
    seq(|items|, k requires 0 <= k < |items| => Description(items[k], listValues))
  }

  /** What each label shows once its markers are taken out. */
  function VisibleLabels(items: seq<Item>, listValues: bool): (r: seq<string>)
    ensures |r| == |items| && forall k :: 0 <= k < |items| ==> r[k] == Visible(items[k], listValues)
  {
    seq(|items|, k requires 0 <= k < |items| => Visible(items[k], listValues))
  }

  /** When every item is displayable, every label is built. */
  lemma LabelsBuilt(items: seq<Item>, listValues: bool)
    requires forall k :: 0 <= k < |items| ==> Displayable(items[k], listValues)
    ensures Labels(items, listValues).Ok?
    ensures forall k :: 0 <= k < |items| ==> Label(items[k], listValues) == Ok(Labels(items, listValues).value[k])
  {
    forall k | 0 <= k < |items| ensures Label(items[k], listValues).Ok? {
      LabelShape(items[k], listValues);
    }
    LabelsFailAtFirst(items, listValues);
  }

  /** When every item is displayable, every label has the shape `LabelShape` gives. */
  lemma LabelsOfDisplayable(items: seq<Item>, listValues: bool)
    requires forall k :: 0 <= k < |items| ==> Displayable(items[k], listValues)
    ensures Labels(items, listValues).Ok?
    ensures StyledEntries(Labels(items, listValues).value, Bodies(items), FirstsShown(items),
                          Descriptions(items, listValues), VisibleLabels(items, listValues))
  {
    LabelsBuilt(items, listValues);
    var entries := Labels(items, listValues).value;
    forall i | 0 <= i < |entries|
      ensures StyledEntry(entries[i], LabelBody(items[i]), FirstShown(items[i]), Description(items[i], listValues))
    {
      LabelShape(items[i], listValues);
    }
  }

  /**
   * What the prompt shows once the output stream has taken its markers out: the prompt
   * text, then each item's first value (and description, in list mode) on lines of their
   * own, or in brackets separated by '/'.
   */
  lemma PromptVisible(promptText: string, items: seq<Item>, listValues: bool)
    requires Unmarked(promptText)
    requires forall k :: 0 <= k < |items| ==> Displayable(items[k], listValues)
    ensures PromptText(promptText, items, listValues).Ok?
    ensures Stripped(PromptText(promptText, items, listValues).value)
            == if listValues then promptText + LineSep + Join(LineSep, VisibleLabels(items, listValues)) + LineSep
               else promptText + "[" + Join("/", VisibleLabels(items, listValues)) + "]"
  {
    LabelsOfDisplayable(items, listValues);
    var entries := Labels(items, listValues).value;
    var visible := VisibleLabels(items, listValues);
    var bodies, shown, after := Bodies(items), FirstsShown(items), Descriptions(items, listValues);
    if listValues {
      JoinedLabelsStripped(entries, bodies, shown, after, visible, LineSep, LineSep);
      PlainPrefix(promptText + LineSep, Join(LineSep, entries) + LineSep);
      Regroup(promptText + LineSep, Join(LineSep, entries), LineSep);
      Regroup(promptText + LineSep, Join(LineSep, visible), LineSep);
    } else {
      JoinedLabelsStripped(entries, bodies, shown, after, visible, "/", "]");
      PlainPrefix(promptText + "[", Join("/", entries) + "]");
      Regroup(promptText + "[", Join("/", entries), "]");
      Regroup(promptText + "[", Join("/", visible), "]");
    }
  }

  // ---------------------------------------------------------------- matching

  /**
   * One comparison of the matching loop: with `ignorecase`, the response against
   * `str(a).lower()`; in any case, the response against `a` itself, which only a string
   * can equal.
   */
  predicate Matches(response: string, a: Value, ignorecase: bool)
  {
    (ignorecase && response == Lower(Show(a))) || (a.Str? && response == a.s)
  }

  /** `t.lower()` with `ignorecase`, else `t`. */
  function Response(t: string, ignorecase: bool): string
  {
    if ignorecase then Lower(t) else t
  }

  function ValuesOf(item: Item): seq<Value>
  {
    if item.values.Some? then item.values.value else []
  }

  predicate GroupMatches(response: string, item: Item, ignorecase: bool)
  {
    exists j :: 0 <= j < |ValuesOf(item)| && Matches(response, ValuesOf(item)[j], ignorecase)
  }

  /**
   * The nested loop over the answers and their values: the first group holding a value
   * that matches gives its first value, and no match gives nothing.
   */
  function Find(items: seq<Item>, response: string, ignorecase: bool): (r: Option<Value>)
    ensures r.Some? <==> exists g :: 0 <= g < |items| && GroupMatches(response, items[g], ignorecase)
    ensures r.Some? ==> exists g :: && 0 <= g < |items| && GroupMatches(response, items[g], ignorecase)
                                    && r.value == ValuesOf(items[g])[0]
                                    && forall h :: 0 <= h < g ==> !GroupMatches(response, items[h], ignorecase)
  {
    if items == [] then None
    else if GroupMatches(response, items[0], ignorecase) then Some(ValuesOf(items[0])[0])
    else
      var r := Find(items[1..], response, ignorecase);
      assert forall g :: 0 <= g < |items| - 1 ==> items[1..][g] == items[g + 1];
      assert r.Some? ==> exists g :: && 1 <= g < |items| && GroupMatches(response, items[g], ignorecase)
                                     && r.value == ValuesOf(items[g])[0]
                                     && forall h :: 0 <= h < g ==> !GroupMatches(response, items[h], ignorecase);
      r
  }

  /** Ignoring case, a response matches a value exactly when both lowered are the same. */
  lemma MatchIgnoringCase(t: string, a: Value)
    ensures Matches(Lower(t), a, true) <==> Lower(t) == Lower(Show(a))
  {
    LowerIdempotent(t);
  }

  /**
   * With `ignorecase`, the reply `t` picks a group exactly when `t.lower()` equals
   * `str(a).lower()` for one of its values `a`.
   */
  lemma FindIgnoringCase(items: seq<Item>, t: string)
    ensures Find(items, Response(t, true), true).Some?
            <==> exists g, j :: 0 <= g < |items| && 0 <= j < |ValuesOf(items[g])|
                                && Lower(t) == Lower(Show(ValuesOf(items[g])[j]))
  {
    forall a: Value ensures Matches(Lower(t), a, true) <==> Lower(t) == Lower(Show(a)) {
      MatchIgnoringCase(t, a);
    }
  }

  /** Without `ignorecase`, a reply picks a group only by equalling one of its strings. */
  lemma FindExactly(items: seq<Item>, t: string)
    ensures Find(items, Response(t, false), false).Some? ==>
              exists g, j :: && 0 <= g < |items| && 0 <= j < |ValuesOf(items[g])|
                             && ValuesOf(items[g])[j] == Str(t)
                             && Find(items, t, false).value == ValuesOf(items[g])[0]
  {
  }

  /** Without `ignorecase`, an answer that is not a string is never chosen. */
  lemma OthersNeverExact(items: seq<Item>, t: string)
    requires forall g, j :: 0 <= g < |items| && 0 <= j < |ValuesOf(items[g])| ==> ValuesOf(items[g])[j].Other?
    ensures Find(items, Response(t, false), false) == None
  {
  }

  // ---------------------------------------------------------------- query

  /**
   * What the user sees, in order: a text passed to the library's `stdout.write`, or
   * `raw_input` showing its prompt and reading a line.
   */
  datatype Event = Wrote(text: string) | Asked(prompt: string)

  /** The answer `query` or `input_object` returns: a value, or `default` on an empty line. */
  datatype Choice = Chosen(value: Value) | Defaulted

  function NotUnderstood(t: string): string
  {
    "Response '" + t + "' not understood, please try again."
  }

  /** The reply `t` picks no group (and is not empty). */
  predicate Unmatched(items: seq<Item>, t: string, ignorecase: bool)
  {
    t != [] && Find(items, Response(t, ignorecase), ignorecase) == None
  }

  /**
   * The `while True` loop of `query` on the lines the user types: each round writes the
   * prompt and reads a line; an empty line gives `default`, a matching one the first
   * value of its group, and any other line an error message and another round.
   */
  function Dialogue(text: string, items: seq<Item>, ignorecase: bool, lines: seq<string>): (Result<Choice, QueryError>, seq<Event>)
  {
    if lines == [] then (Err(InputExhausted), [Wrote(text), Asked(": ")])
    else if lines[0] == [] then (Ok(Defaulted), [Wrote(text), Asked(": ")])
    else match Find(items, Response(lines[0], ignorecase), ignorecase)
      case Some(v) => (Ok(Chosen(v)), [Wrote(text), Asked(": ")])
      case None =>
        var next := Dialogue(text, items, ignorecase, lines[1..]);
        (next.0, [Wrote(text), Asked(": "), Wrote(ErrorMessage(NotUnderstood(lines[0])))] + next.1)
  }

  /** `query`: normalize the answers, build the prompt (which may raise), then the dialogue. */
  function QueryRun(promptText: string, answers: seq<Answer>, listValues: bool, ignorecase: bool,
                    lines: seq<string>): (Result<Choice, QueryError>, seq<Event>)
  {
    var items := ItemsOf(answers);
    match PromptText(promptText, items, listValues)
    case Err(e) => (Err(e), [])
    case Ok(text) => Dialogue(text, items, ignorecase, lines)
  }

  /** `query(prompt_text, answers, default, list_values, ignorecase)`, reading from `lines`. */
  method Query(promptText: string, answers: seq<Answer>, listValues: bool, ignorecase: bool, lines: seq<string>)
    returns (r: Result<Choice, QueryError>, events: seq<Event>)
    ensures (r, events) == QueryRun(promptText, answers, listValues, ignorecase, lines)
  {
    var list := new Answer[|answers|](i requires 0 <= i < |answers| => answers[i]);
    Normalize(list);
    var items := ItemsOf(list[..]);
    assert items == ItemsOf(answers) by {
      forall i | 0 <= i < |answers| ensures Normalized(list[i]) == Normalized(answers[i]) {
        NormalizedIsStable(answers[i]);
      }
    }
    var built := BuildPrompt(promptText, list, listValues);
    if built.Err? {
      return Err(built.error), [];
    }
    r, events := Converse(built.value, items, ignorecase, lines);
  }

  /** The `while True` loop of `query`, once the prompt is built. */
  method Converse(text: string, items: seq<Item>, ignorecase: bool, lines: seq<string>)
    returns (r: Result<Choice, QueryError>, events: seq<Event>)
    ensures (r, events) == Dialogue(text, items, ignorecase, lines)
  {
    events := [];
    var i := 0;
    ghost var rest := lines;
    while true
      invariant 0 <= i <= |lines| && rest == lines[i..]
      invariant Dialogue(text, items, ignorecase, lines).0 == Dialogue(text, items, ignorecase, rest).0
      invariant Dialogue(text, items, ignorecase, lines).1 == events + Dialogue(text, items, ignorecase, rest).1
      decreases |lines| - i
    {
      if i == |lines| {
        assert rest == [];
        return Err(InputExhausted), events + [Wrote(text), Asked(": ")];
      }
      var t := lines[i];
      assert rest != [] && rest[0] == t;
      if t == [] {
        return Ok(Defaulted), events + [Wrote(text), Asked(": ")];
      }
      var response := if ignorecase then Lower(t) else t;
      var found := Find(items, response, ignorecase);
      if found.Some? {
        return Ok(Chosen(found.value)), events + [Wrote(text), Asked(": ")];
      }
      var round := [Wrote(text), Asked(": "), Wrote(ErrorMessage(NotUnderstood(t)))];
      ghost var later := Dialogue(text, items, ignorecase, rest[1..]).1;
      assert Dialogue(text, items, ignorecase, rest).1 == round + later;
      Regroup(events, round, later);
      events := events + round;
      rest := rest[1..];
      i := i + 1;
    }
  }

  /** How many leading lines are not understood: the rounds that end in an error message. */
  function Rounds(items: seq<Item>, ignorecase: bool, lines: seq<string>): (n: nat)
    ensures n <= |lines|
    ensures forall j :: 0 <= j < n ==> Unmatched(items, lines[j], ignorecase)
    ensures n < |lines| ==> !Unmatched(items, lines[n], ignorecase)
  {
    if lines != [] && Unmatched(items, lines[0], ignorecase) then
      var n := 1 + Rounds(items, ignorecase, lines[1..]);
      assert forall j :: 1 <= j < n ==> lines[j] == lines[1..][j - 1];
      n
    else 0
  }

  /**
   * How the dialogue ends, after one round per line not understood: no line left is
   * EOFError, an empty line gives `default`, any other line the first value of the group
   * it picks. An unmatched line never ends it.
   */
  lemma DialogueResult(text: string, items: seq<Item>, ignorecase: bool, lines: seq<string>)
    ensures var n, d := Rounds(items, ignorecase, lines), Dialogue(text, items, ignorecase, lines);
            && (n == |lines| ==> d.0 == Err(InputExhausted))
            && (n < |lines| && lines[n] == [] ==> d.0 == Ok(Defaulted))
            && (n < |lines| && lines[n] != [] ==>
                  Find(items, Response(lines[n], ignorecase), ignorecase).Some?
                  && d.0 == Ok(Chosen(Find(items, Response(lines[n], ignorecase), ignorecase).value)))
  {
    var n := Rounds(items, ignorecase, lines);
    DialogueFrom(text, items, ignorecase, lines, n);
    DialogueStops(text, items, ignorecase, lines[n..]);
    if n < |lines| {
      assert lines[n..][0] == lines[n];
    }
  }

  /** Lines not understood only add rounds: the outcome is that of the lines after them. */
  lemma {:induction false} DialogueFrom(text: string, items: seq<Item>, ignorecase: bool, lines: seq<string>, i: nat)
    requires i <= Rounds(items, ignorecase, lines)
    ensures Dialogue(text, items, ignorecase, lines).0 == Dialogue(text, items, ignorecase, lines[i..]).0
  {
    if i > 0 {
      DialogueFrom(text, items, ignorecase, lines, i - 1);
      var from := lines[i - 1..];
      assert Unmatched(items, from[0], ignorecase);
      assert from[1..] == lines[i..];
      DialogueSkipsUnmatched(text, items, ignorecase, from);
    }
  }

  lemma DialogueSkipsUnmatched(text: string, items: seq<Item>, ignorecase: bool, lines: seq<string>)
    requires lines != [] && Unmatched(items, lines[0], ignorecase)
    ensures Dialogue(text, items, ignorecase, lines).0 == Dialogue(text, items, ignorecase, lines[1..]).0
  {
  }

  /** The dialogue at a line that is understood or empty, or at the end of input, ends there. */
  lemma DialogueStops(text: string, items: seq<Item>, ignorecase: bool, lines: seq<string>)
    requires lines == [] || !Unmatched(items, lines[0], ignorecase)
    ensures lines == [] ==> Dialogue(text, items, ignorecase, lines).0 == Err(InputExhausted)
    ensures lines != [] && lines[0] == [] ==> Dialogue(text, items, ignorecase, lines).0 == Ok(Defaulted)
    ensures lines != [] && lines[0] != [] ==>
              Find(items, Response(lines[0], ignorecase), ignorecase).Some?
              && Dialogue(text, items, ignorecase, lines).0
                 == Ok(Chosen(Find(items, Response(lines[0], ignorecase), ignorecase).value))
  {
  }

  /** The rounds for replies not understood: the prompt, the read, the error message naming the reply. */
  function Complaints(text: string, replies: seq<string>): (r: seq<Event>)
    ensures |r| == 3 * |replies|
  {
    if replies == [] then []
    else [Wrote(text), Asked(": "), Wrote(ErrorMessage(NotUnderstood(replies[0])))] + Complaints(text, replies[1..])
  }

  /**
   * What the dialogue writes and asks: a round per line not understood, then the prompt
   * and the read that end it.
   */
  lemma {:induction false} DialogueTrace(text: string, items: seq<Item>, ignorecase: bool, lines: seq<string>)
    ensures var n := Rounds(items, ignorecase, lines);
            Dialogue(text, items, ignorecase, lines).1 == Complaints(text, lines[..n]) + [Wrote(text), Asked(": ")]
  {
    var n := Rounds(items, ignorecase, lines);
    if lines != [] && Unmatched(items, lines[0], ignorecase) {
      var rest := lines[1..];
      DialogueTrace(text, items, ignorecase, rest);
      var m := Rounds(items, ignorecase, rest);
      assert n == m + 1;
      assert lines[..n][1..] == rest[..m];
      var round := [Wrote(text), Asked(": "), Wrote(ErrorMessage(NotUnderstood(lines[0])))];
      Regroup(round, Complaints(text, rest[..m]), [Wrote(text), Asked(": ")]);
    } else {
      assert lines[..n] == [];
    }
  }

  // ---------------------------------------------------------------- input_object

  /** Which cast `input_object` was given, as far as its error message goes. */
  datatype CastKind = IntCast | FloatCast | OtherCast

  /** The NameError the EOFError branch raises by returning the undefined name `false`. */
  datatype InputError = NameError(name: string)

  /** The message for a cast that raised ValueError: NICE_INPUT_ERRORS for int and float, else DEFAULT_INPUT_ERRORS. */
  function CastMessage(kind: CastKind, t: string, details: string): string
  {
    match kind
    case FloatCast => "The input ('" + t + "') must be a number"
    case IntCast => "The input ('" + t + "') must be an integer (-1, 0, 1, 2, etc.)"
    case OtherCast => "Bad input (" + details + ")"
  }

  /** One rejected line: the prompt, then the error message for the line the cast refused. */
  function RejectionRound(promptText: string, kind: CastKind, t: string, details: string): seq<Event>
  {
    [Asked(promptText), Wrote(ErrorMessage(CastMessage(kind, t, details)))]
  }

  /**
   * The loop of `input_object` on the lines the user types: an empty line gives `default`
   * before the cast is called, a line the cast accepts gives its value, and a line it
   * rejects (ValueError, with `details`) an error message and another prompt.
   */
  function Reading(promptText: string, kind: CastKind, cast: string -> Result<Value, string>,
                   lines: seq<string>): (Result<Choice, InputError>, seq<Event>)
  {
    if lines == [] then (Err(NameError("false")), [Asked(promptText)])
    else if lines[0] == [] then (Ok(Defaulted), [Asked(promptText)])
    else match cast(lines[0])
      case Ok(v) => (Ok(Chosen(v)), [Asked(promptText)])
      case Err(details) =>
        var next := Reading(promptText, kind, cast, lines[1..]);
        (next.0, RejectionRound(promptText, kind, lines[0], details) + next.1)
  }

  /** `input_object(prompt_text, cast, default)`, reading from `lines`. */
  method InputObject(promptText: string, kind: CastKind, cast: string -> Result<Value, string>, lines: seq<string>)
    returns (r: Result<Choice, InputError>, events: seq<Event>)
    ensures r == Reading(promptText, kind, cast, lines).0
    ensures events == Reading(promptText, kind, cast, lines).1
  {
    events := [];
    var i := 0;
    ghost var rest := lines;
    while true
      invariant 0 <= i <= |lines| && rest == lines[i..]
      invariant Reading(promptText, kind, cast, lines).0 == Reading(promptText, kind, cast, rest).0
      invariant Reading(promptText, kind, cast, lines).1 == events + Reading(promptText, kind, cast, rest).1
      decreases |lines| - i
    {
      if i == |lines| {
        assert rest == [];
        return Err(NameError("false")), events + [Asked(promptText)];
      }
      var t := lines[i];
      assert rest != [] && rest[0] == t;
      if t == [] {
        return Ok(Defaulted), events + [Asked(promptText)];
      }
      var value := cast(t);
      if value.Ok? {
        return Ok(Chosen(value.value)), events + [Asked(promptText)];
      }
      var complaint := RejectionRound(promptText, kind, t, value.error);
      ghost var later := Reading(promptText, kind, cast, rest[1..]).1;
      assert Reading(promptText, kind, cast, rest).1 == complaint + later;
      Regroup(events, complaint, later);
      events := events + complaint;
      rest := rest[1..];
      i := i + 1;
    }
  }


  /** The cast rejects the (non-empty) line. */
  predicate Rejected(cast: string -> Result<Value, string>, t: string)
  {
    t != [] && cast(t).Err?
  }

  /** How many leading lines the cast rejects. */
  function Retries(cast: string -> Result<Value, string>, lines: seq<string>): (n: nat)
    ensures n <= |lines|
    ensures forall j :: 0 <= j < n ==> Rejected(cast, lines[j])
    ensures n < |lines| ==> !Rejected(cast, lines[n])
  {
    if lines != [] && Rejected(cast, lines[0]) then
      var n := 1 + Retries(cast, lines[1..]);
      assert forall j :: 1 <= j < n ==> lines[j] == lines[1..][j - 1];
      n
    else 0
  }

  /**
   * How `input_object` ends, after one round per rejected line: no line left raises
   * NameError, an empty line gives `default`, any other line the value the cast made of it.
   */
  lemma ReadingResult(promptText: string, kind: CastKind, cast: string -> Result<Value, string>,
                                         lines: seq<string>)
    ensures var n, d := Retries(cast, lines), Reading(promptText, kind, cast, lines);
            && (n == |lines| ==> d.0 == Err(NameError("false")))
            && (n < |lines| && lines[n] == [] ==> d.0 == Ok(Defaulted))
            && (n < |lines| && lines[n] != [] ==> cast(lines[n]).Ok? && d.0 == Ok(Chosen(cast(lines[n]).value)))
  {
    var n := Retries(cast, lines);
    ReadingFrom(promptText, kind, cast, lines, n);
    ReadingStops(promptText, kind, cast, lines[n..]);
    if n < |lines| {
      assert lines[n..][0] == lines[n];
    }
  }

  /** Rejected lines only add rounds: the outcome is that of the lines after them. */
  lemma {:induction false} ReadingFrom(promptText: string, kind: CastKind, cast: string -> Result<Value, string>,
                                       lines: seq<string>, i: nat)
    requires i <= Retries(cast, lines)
    ensures Reading(promptText, kind, cast, lines).0 == Reading(promptText, kind, cast, lines[i..]).0
  {
    if i > 0 {
      ReadingFrom(promptText, kind, cast, lines, i - 1);
      var from := lines[i - 1..];
      assert Rejected(cast, from[0]);
      assert from[1..] == lines[i..];
      ReadingSkipsRejected(promptText, kind, cast, from);
    }
  }

  lemma ReadingSkipsRejected(promptText: string, kind: CastKind, cast: string -> Result<Value, string>,
                             lines: seq<string>)
    requires lines != [] && Rejected(cast, lines[0])
    ensures Reading(promptText, kind, cast, lines).0 == Reading(promptText, kind, cast, lines[1..]).0
  {
  }

  /** Reading at a line that is not rejected, or at the end of input, ends there. */
  lemma ReadingStops(promptText: string, kind: CastKind, cast: string -> Result<Value, string>, lines: seq<string>)
    requires lines == [] || !Rejected(cast, lines[0])
    ensures lines == [] ==> Reading(promptText, kind, cast, lines).0 == Err(NameError("false"))
    ensures lines != [] && lines[0] == [] ==> Reading(promptText, kind, cast, lines).0 == Ok(Defaulted)
    ensures lines != [] && lines[0] != [] ==>
              cast(lines[0]).Ok? && Reading(promptText, kind, cast, lines).0 == Ok(Chosen(cast(lines[0]).value))
  {
  }

  /** The rounds for rejected lines: the prompt, then the error message for the line. */
  function Rejections(promptText: string, kind: CastKind, cast: string -> Result<Value, string>,
                      rejected: seq<string>): (r: seq<Event>)
    requires forall j :: 0 <= j < |rejected| ==> Rejected(cast, rejected[j])
    ensures |r| == 2 * |rejected|
  {
    if rejected == [] then []
    else
      assert Rejected(cast, rejected[0]);
      RejectionRound(promptText, kind, rejected[0], cast(rejected[0]).error)
      + Rejections(promptText, kind, cast, rejected[1..])
  }

  /** What `input_object` asks and writes: a round per rejected line, then the last prompt. */
  lemma {:induction false} ReadingTrace(promptText: string, kind: CastKind, cast: string -> Result<Value, string>,
                                        lines: seq<string>)
    ensures var n := Retries(cast, lines);
            Reading(promptText, kind, cast, lines).1 == Rejections(promptText, kind, cast, lines[..n]) + [Asked(promptText)]
  {
    var n := Retries(cast, lines);
    if lines != [] && Rejected(cast, lines[0]) {
      var rest := lines[1..];
      ReadingTrace(promptText, kind, cast, rest);
      var m := Retries(cast, rest);
      assert n == m + 1;
      assert lines[..n][1..] == rest[..m];
      var round := RejectionRound(promptText, kind, lines[0], cast(lines[0]).error);
      Regroup(round, Rejections(promptText, kind, cast, rest[..m]), [Asked(promptText)]);
    } else {
      assert lines[..n] == [];
    }
  }

  /** An empty line gives `default` whatever the cast: the cast is never called on it. */
  lemma EmptyLineSkipsCast(promptText: string, kind: CastKind, cast: string -> Result<Value, string>,
                           other: string -> Result<Value, string>, lines: seq<string>)
    requires lines != [] && lines[0] == []
    ensures Reading(promptText, kind, cast, lines) == Reading(promptText, kind, other, lines)
                                                   == (Ok(Defaulted), [Asked(promptText)])
  {
  }
}
