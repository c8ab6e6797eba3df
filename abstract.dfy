/**
 * The front end of the terminal library (libs/terminate/abstract.py): `color`, which
 * returns the ANSI code for a style, and `OutputStream`, a wrapper around a file object
 * whose `write` cuts the text at every SGR marker, forwards the plain text and turns each
 * marker back into a call of the selected controller's `display`.
 */
module Abstract {
  import opened Wrappers
  import opened Strings
  import opened Control
  import opened WinConsole
  import opened Sinks
  import opened Controllers

  // ---------------------------------------------------------------- the marker pattern

  /** `\x01` and `\x02`, the optional bytes around a marker (readline's prompt brackets). */
  const StartOfHeading: char := '\U{01}'

  const StartOfText: char := '\U{02}'

  /** The length of the longest run of digits and semicolons at the start of `t` (`[0-9;]*`). */
  function BodyRun(t: string): (n: nat)
    ensures n <= |t| && IsBody(t[..n]) && (n < |t| ==> !IsBodyChar(t[n]))
  {
    if t == [] || !IsBodyChar(t[0]) then 0
    else
      var n := 1 + BodyRun(t[1..]);
      assert t[..n] == [t[0]] + t[1..][..n - 1];
      n
  }

  /** A match of the pattern: how many characters it spans, and its group (the body). */
  datatype Marker = Marker(len: nat, body: string)

  /** The text a marker with this body spans: `\x01`?, ESC [, the body, m, `\x02`?. */
  function MarkerText(lead: bool, body: string, trail: bool): string
  {
    (if lead then [StartOfHeading] else []) + Csi + body + "m" + (if trail then [StartOfText] else [])
  }

  /** `\x1b\[([0-9;]*)m\x02?` matched at the start of `t`: the run is greedy, and so is `\x02?`. */
  function EscMatch(t: string): (r: Option<Marker>)
    ensures r.Some? ==> 3 <= r.value.len <= |t| && IsBody(r.value.body)
                        && t[..r.value.len] == MarkerText(false, r.value.body, r.value.len == |r.value.body| + 4)
  {
    if |t| < 3 || t[0] != Escape || t[1] != '[' then None
    else
      var n := BodyRun(t[2..]);
      if 2 + n < |t| && t[2 + n] == 'm' then
        var len := if 3 + n < |t| && t[3 + n] == StartOfText then 4 + n else 3 + n;
        assert t[2..2 + n] == t[2..][..n];
        assert t[..len] == MarkerText(false, t[2..2 + n], len == n + 4);
        Some(Marker(len, t[2..2 + n]))
      else None
  }

  /**
   * `escape_parts.match(s)`: the pattern at the start of `s`. A leading `\x01` is taken
   * when a marker follows it; otherwise the match, if any, starts at ESC.
   */
  function MatchAt(s: string): (r: Option<Marker>)
    ensures r.Some? ==> 3 <= r.value.len <= |s| && IsBody(r.value.body)
                        && s[..r.value.len] == MarkerText(s[0] == StartOfHeading, r.value.body,
                                                          s[r.value.len - 1] == StartOfText)
  {
    if |s| > 0 && s[0] == StartOfHeading && EscMatch(s[1..]).Some? then
      LeadMatchShape(s);
      var m := EscMatch(s[1..]).value;
      Some(Marker(m.len + 1, m.body))
    else
      EscMatchShape(s);
      EscMatch(s)
  }

  /** A match after `\x01` spans the `\x01` too, and ends in `\x02` exactly when it took one. */
  lemma LeadMatchShape(s: string)
    requires |s| > 0 && s[0] == StartOfHeading && EscMatch(s[1..]).Some?
    ensures var m := EscMatch(s[1..]).value;
            m.len + 1 <= |s| && s[..m.len + 1] == MarkerText(true, m.body, s[m.len] == StartOfText)
  {
    var m := EscMatch(s[1..]).value;
    var trail := m.len == |m.body| + 4;
    MarkerTextEnds(true, m.body, trail);
    MarkerTextEnds(false, m.body, trail);
    assert s[..m.len + 1] == [s[0]] + s[1..][..m.len];
    assert s[m.len] == s[1..][..m.len][m.len - 1];
  }

  /** A match at ESC ends in `\x02` exactly when it took one. */
  lemma EscMatchShape(s: string)
    ensures var r := EscMatch(s);
            r.Some? ==> s[0] != StartOfHeading
                        && s[..r.value.len] == MarkerText(false, r.value.body, s[r.value.len - 1] == StartOfText)
  {
    var r := EscMatch(s);
    if r.Some? {
      MarkerTextEnds(false, r.value.body, r.value.len == |r.value.body| + 4);
      assert s[r.value.len - 1] == s[..r.value.len][r.value.len - 1];
    }
  }

  /** A marker's text starts with `\x01` or ESC and ends with `\x02` exactly when it has one. */
  lemma MarkerTextEnds(lead: bool, body: string, trail: bool)
    ensures var t := MarkerText(lead, body, trail);
            && |t| == (if lead then 1 else 0) + |body| + (if trail then 4 else 3)
            && t[0] == (if lead then StartOfHeading else Escape)
            && (t[|t| - 1] == StartOfText <==> trail)
            && (lead ==> t == [StartOfHeading] + MarkerText(false, body, trail))
  {
  }

  /**
   * Every marker is recognised: ESC [ body m, with or without the `\x01` before it, is a
   * match spanning exactly that text, whose `\x02` is taken when one follows.
   */
  lemma MarkerRecognised(lead: bool, body: string, trail: bool, rest: string)
    requires IsBody(body)
    requires !trail ==> rest == [] || rest[0] != StartOfText
    ensures MatchAt(MarkerText(lead, body, trail) + rest)
            == Some(Marker(|MarkerText(lead, body, trail)|, body))
  {
    var t := MarkerText(false, body, trail) + rest;
    var s := MarkerText(lead, body, trail) + rest;
    EscRecognised(body, trail, rest);
    if lead {
      assert s == [StartOfHeading] + t;
      assert s[0] == StartOfHeading && s[1..] == t;
    } else {
      assert s == t;
      assert s[0] == Escape;
    }
  }

  lemma EscRecognised(body: string, trail: bool, rest: string)
    requires IsBody(body)
    requires !trail ==> rest == [] || rest[0] != StartOfText
    ensures EscMatch(MarkerText(false, body, trail) + rest)
            == Some(Marker(|MarkerText(false, body, trail)|, body))
  {
    var m := MarkerText(false, body, trail);
    var t := m + rest;
    var k := |body|;
    MarkerTextParts(body, trail);
    assert t[0] == Escape && t[1] == '[' && t[2 + k] == 'm';
    assert t[2..2 + k] == body by {
      assert t[2..2 + k] == m[2..2 + k];
    }
    assert t[2..][..k] == t[2..2 + k];
    if 3 + k < |t| {
      assert t[3 + k] == if trail then StartOfText else rest[0];
    }
    BodyRunOfBody(body, t[2..]);
  }

  /** Where the parts of an unled marker sit: ESC and `[` first, the body, `m`, then `\x02` when it trails one. */
  lemma MarkerTextParts(body: string, trail: bool)
    ensures var m := MarkerText(false, body, trail);
            |m| == |body| + (if trail then 4 else 3)
            && m[0] == Escape && m[1] == '[' && m[2..2 + |body|] == body && m[2 + |body|] == 'm'
            && (trail ==> m[3 + |body|] == StartOfText)
  {
    var tr: string := if trail then [StartOfText] else [];
    var m := MarkerText(false, body, trail);
    assert m == Csi + body + "m" + tr by {
      assert [] + Csi + body + "m" + tr == Csi + body + "m" + tr;
    }
    assert m[2..2 + |body|] == body;
  }

  lemma {:induction false} BodyRunOfBody(body: string, t: string)
    requires IsBody(body) && |body| < |t| && t[..|body|] == body && !IsBodyChar(t[|body|])
    ensures BodyRun(t) == |body|
    decreases |body|
  {
    if body != [] {
      assert t[1..][..|body| - 1] == body[1..];
      BodyRunOfBody(body[1..], t[1..]);
    }
  }

  // ---------------------------------------------------------------- splitting

  /**
   * `escape_parts.split(s)`: the text between matches and the group of each match,
   * alternating, so that plain text sits at the even positions and bodies at the odd ones.
   */
  function SplitMarkers(s: string): (parts: seq<string>)
    ensures |parts| % 2 == 1
    ensures forall i :: 0 <= i < |parts| && i % 2 == 1 ==> IsBody(parts[i])
    decreases |s|
  {
    if s == [] then [[]]
    else match MatchAt(s)
      case Some(m) =>
        var rest := SplitMarkers(s[m.len..]);
        MarkerChunkAlternates(m.body, rest);
        [[], m.body] + rest
      case None =>
        var rest := SplitMarkers(s[1..]);
        PlainChunkAlternates([s[0]], rest);
        [[s[0]] + rest[0]] + rest[1..]
  }

  /** Chunks alternate plain text and bodies: an odd count, and a body at every odd position. */
  predicate Alternates(parts: seq<string>)
  {
    |parts| % 2 == 1 && forall i :: 0 <= i < |parts| && i % 2 == 1 ==> IsBody(parts[i])
  }

  lemma MarkerChunkAlternates(body: string, rest: seq<string>)
    requires IsBody(body) && Alternates(rest)
    ensures Alternates([[], body] + rest)
  {
    var parts := [[], body] + rest;
    forall i | 0 <= i < |parts| && i % 2 == 1 ensures IsBody(parts[i]) {
      if i >= 2 {
        assert parts[i] == rest[i - 2] && (i - 2) % 2 == 1;
      }
    }
  }

  lemma PlainChunkAlternates(p: string, rest: seq<string>)
    requires Alternates(rest)
    ensures Alternates([p + rest[0]] + rest[1..])
  {
    var parts := [p + rest[0]] + rest[1..];
    forall i | 0 <= i < |parts| && i % 2 == 1 ensures IsBody(parts[i]) {
      assert parts[i] == rest[i];
    }
  }

  /** The input with every match of the pattern deleted. */
  function Stripped(s: string): (r: string)
    ensures |r| <= |s|
    decreases |s|
  {
    if s == [] then []
    else match MatchAt(s)
      case Some(m) => Stripped(s[m.len..])
      case None => [s[0]] + Stripped(s[1..])
  }

  /** The plain chunks concatenated: those at even positions, when the first is at an `odd` one or not. */
  function PlainText(chunks: seq<string>, odd: bool): string
  {
    if chunks == [] then []
    else (if !odd then chunks[0] else []) + PlainText(chunks[1..], !odd)
  }

  lemma PlainTextSkipsBody(body: string, rest: seq<string>)
    ensures PlainText([[], body] + rest, false) == PlainText(rest, false)
  {
    assert ([[], body] + rest)[1..] == [body] + rest;
    assert ([body] + rest)[1..] == rest;
  }

  lemma PlainTextExtendsFirst(c: char, rest: seq<string>)
    requires rest != []
    ensures PlainText([[c] + rest[0]] + rest[1..], false) == [c] + PlainText(rest, false)
  {
    var tail := PlainText(rest[1..], true);
    assert PlainText([[c] + rest[0]] + rest[1..], false) == ([c] + rest[0]) + tail by {
      PlainTextCons([c] + rest[0], rest[1..], false);
    }
    assert PlainText(rest, false) == rest[0] + tail by {
      assert rest == [rest[0]] + rest[1..];
      PlainTextCons(rest[0], rest[1..], false);
    }
  }

  lemma PlainTextCons(first: string, others: seq<string>, odd: bool)
    ensures PlainText([first] + others, odd) == (if !odd then first else []) + PlainText(others, !odd)
  {
    assert ([first] + others)[1..] == others;
  }

  /** The plain chunks of the split are exactly the text the pattern does not match. */
  lemma {:induction false} PlainTextOfSplit(s: string)
    ensures PlainText(SplitMarkers(s), false) == Stripped(s)
    decreases |s|
  {
    if s != [] {
      var m := MatchAt(s);
      if m.Some? {
        PlainTextOfSplit(s[m.value.len..]);
        PlainTextSkipsBody(m.value.body, SplitMarkers(s[m.value.len..]));
      } else {
        PlainTextOfSplit(s[1..]);
        PlainTextExtendsFirst(s[0], SplitMarkers(s[1..]));
      }
    }
  }

  /** Text without ESC and without `\x01` holds no marker: it is one plain chunk. */
  lemma {:induction false} PlainPrefix(p: string, t: string)
    requires Escape !in p && StartOfHeading !in p
    ensures SplitMarkers(p + t) == [p + SplitMarkers(t)[0]] + SplitMarkers(t)[1..]
    ensures Stripped(p + t) == p + Stripped(t)
    decreases |p|
  {
    if p != [] {
      PlainHeadAndTail(p);
      PlainPrefix(p[1..], t);
      PlainPrefixStep(p, t);
    } else {
      EmptyPrefix(t);
    }
  }

  /** The first character of text without ESC and `\x01` is neither, and its tail has neither. */
  lemma PlainHeadAndTail(p: string)
    requires p != [] && Escape !in p && StartOfHeading !in p
    ensures p[0] != Escape && p[0] != StartOfHeading
    ensures Escape !in p[1..] && StartOfHeading !in p[1..]
  {
    assert p == [p[0]] + p[1..];
  }

  /** The base of `PlainPrefix`: nothing in front. */
  lemma EmptyPrefix(t: string)
    ensures SplitMarkers([] + t) == [[] + SplitMarkers(t)[0]] + SplitMarkers(t)[1..]
    ensures Stripped([] + t) == [] + Stripped(t)
  {
    var parts := SplitMarkers(t);
    HeadThenTail(parts);
    NothingInFront(t);
    NothingInFront(parts[0]);
    NothingInFront(Stripped(t));
  }

  lemma NothingInFront<T>(xs: seq<T>)
    ensures [] + xs == xs
  {
  }

  lemma HeadThenTail<T>(xs: seq<T>)
    requires xs != []
    ensures xs == [xs[0]] + xs[1..]
  {
  }

  /** One character of plain text more in front: the step of `PlainPrefix`. */
  lemma PlainPrefixStep(p: string, t: string)
    requires p != [] && p[0] != Escape && p[0] != StartOfHeading
    requires SplitMarkers(p[1..] + t) == [p[1..] + SplitMarkers(t)[0]] + SplitMarkers(t)[1..]
    requires Stripped(p[1..] + t) == p[1..] + Stripped(t)
    ensures SplitMarkers(p + t) == [p + SplitMarkers(t)[0]] + SplitMarkers(t)[1..]
    ensures Stripped(p + t) == p + Stripped(t)
  {
    NoMarkerAtHead(p, t);
    ConsPrefix(p, SplitMarkers(t)[0]);
    ConsPrefix(p, Stripped(t));
  }

  /** Putting back the first character of `p` in front of the rest of `p` gives `p`. */
  lemma ConsPrefix(p: string, x: string)
    requires p != []
    ensures [p[0]] + (p[1..] + x) == p + x
  {
    assert p == [p[0]] + p[1..];
    Regroup([p[0]], p[1..], x);
  }

  /** A first character that is neither ESC nor `\x01` starts no match: it joins the first chunk. */
  lemma NoMarkerAtHead(p: string, t: string)
    requires p != [] && p[0] != Escape && p[0] != StartOfHeading
    ensures SplitMarkers(p + t) == [[p[0]] + SplitMarkers(p[1..] + t)[0]] + SplitMarkers(p[1..] + t)[1..]
    ensures Stripped(p + t) == [p[0]] + Stripped(p[1..] + t)
  {
    assert (p + t)[1..] == p[1..] + t;
    assert MatchAt(p + t) == None;
  }

  /** Text without ESC and without `\x01` is written unchanged, as a single chunk. */
  lemma PlainTextUnchanged(p: string)
    requires Escape !in p && StartOfHeading !in p
    ensures SplitMarkers(p) == [p] && Stripped(p) == p
  {
    PlainPrefix(p, []);
    assert p + [] == p;
  }

  /** A marker in the text becomes an empty plain chunk and its body, and the scan resumes after it. */
  lemma MarkerSplits(lead: bool, body: string, trail: bool, rest: string)
    requires IsBody(body)
    requires !trail ==> rest == [] || rest[0] != StartOfText
    ensures SplitMarkers(MarkerText(lead, body, trail) + rest) == [[], body] + SplitMarkers(rest)
    ensures Stripped(MarkerText(lead, body, trail) + rest) == Stripped(rest)
  {
    var s := MarkerText(lead, body, trail) + rest;
    MarkerRecognised(lead, body, trail, rest);
    assert s[|MarkerText(lead, body, trail)|..] == rest;
  }

  // ---------------------------------------------------------------- color

  /**
   * `color`: the ANSI code for a style whatever backend is selected, raising what
   * `formatcodes` raises. The code is one whole marker, which `write` recognises and
   * whose body is the parameters of the validated request.
   */
  function ColorMarker(codes: CodesArg, fg: Option<string>, bg: Option<string>): (r: Result<string, StyleError>)
    ensures r.Err? <==> FormatCodes(codes, fg, bg).Err?
    ensures r.Err? ==> r.error == FormatCodes(codes, fg, bg).error
    ensures r.Ok? ==> r.value == MarkerText(false, SgrBody(FormatCodes(codes, fg, bg).value), false)
  {
    var d := DisplayCode(codes, fg, bg);
    if d.Ok? then
      CodeIsMarker(d.value);
      d
    else d
  }

  /** A code of the form ESC [ ... m is the marker whose body is what lies between `[` and `m`. */
  lemma CodeIsMarker(s: string)
    requires |s| >= 3 && s[..2] == Csi && s[|s| - 1] == 'm'
    ensures s == MarkerText(false, s[2..|s| - 1], false)
  {
    var body := s[2..|s| - 1];
    assert MarkerText(false, body, false) == Csi + body + "m" by {
      assert [] + Csi + body + "m" + [] == Csi + body + "m";
    }
    assert s == s[..2] + body + [s[|s| - 1]];
  }

  // ---------------------------------------------------------------- writing

  /** What `write` raises: ValueError or IndexError from `readcodes`, or ValueError from `display`. */
  datatype WriteError = Undecodable(decodeError: DecodeError) | Invalid(styleError: StyleError)

  /**
   * What a write can change: the wrapped stream, the stream the ANSI controller writes
   * to, and the console.
   */
  datatype World = World(stream: SinkState, stdout: SinkState, console: Console)

  /**
   * The controller `control.display` dispatches to, its console's default word, and
   * whether the wrapped stream is the very stream the ANSI controller writes to.
   */
  datatype Setup = Setup(backend: Backend, dflt: Word, shared: bool)

  /** `display(**r)`: the 'codes' key, or the default `[]` when `readcodes` left it out. */
  function DisplayArgs(d: Decoded): CodesArg
  {
    Many(if d.codes.Some? then d.codes.value else [])
  }

  /** The controller's `_display` of a validated request, on whichever stream it writes to. */
  function Restyled(w: World, setup: Setup, req: Request): World
  {
    if setup.shared then
      var o := Shown(setup.backend, w.stream, w.console, setup.dflt, req);
      World(o.0, w.stdout, o.1)
    else
      var o := Shown(setup.backend, w.stdout, w.console, setup.dflt, req);
      World(w.stream, o.0, o.1)
  }

  /**
   * One chunk of the loop in `OutputStream.write`: an empty chunk is skipped; plain text
   * is written; a body is split on `;`, decoded and displayed; either is then flushed.
   */
  function Step(chunk: string, isBody: bool, w: World, setup: Setup): (World, Outcome<WriteError>)
  {
    if chunk == [] then (w, Pass)
    else if !isBody then (w.(stream := Flushed(Written(w.stream, chunk))), Pass)
    else match DecodeFields(Split(chunk, ';'))
      case Err(e) => (w, Fail(Undecodable(e)))
      case Ok(d) =>
        match FormatCodes(DisplayArgs(d), d.fg, d.bg)
        case Err(e) => (w, Fail(Invalid(e)))
        case Ok(req) =>
          var w1 := Restyled(w, setup, req);
          (w1.(stream := Flushed(w1.stream)), Pass)
  }

  /** The loop from a chunk at an `odd` position or not: the first exception ends the write. */
  function Run(chunks: seq<string>, odd: bool, w: World, setup: Setup): (World, Outcome<WriteError>)
    decreases |chunks|
  {
    if chunks == [] then (w, Pass)
    else
      var (w1, o) := Step(chunks[0], odd, w, setup);
      if o.Fail? then (w1, o) else Run(chunks[1..], !odd, w1, setup)
  }

  class OutputStream {
    /** The file object wrapped. */
    const stream: Sink

    constructor(stream: Sink)
      ensures this.stream == stream
    {
      this.stream := stream;
    }

    /** `raw_write`: the text goes to the stream as it is, markers included. */
    method RawWrite(text: string)
      modifies stream
      ensures stream.State() == Written(old(stream.State()), text)
    {
      stream.Write(text);
    }

    method Flush()
      modifies stream
      ensures stream.State() == Flushed(old(stream.State()))
    {
      stream.Flush();
    }

    /**
     * `write`: split the text on the marker pattern and walk the chunks, writing plain
     * text, displaying markers through `ctl`, and flushing after every non-empty chunk.
     */
    method Write(text: string, ctl: Controller) returns (r: Outcome<WriteError>)
      modifies stream, ctl.stdout, ctl.console
      ensures var run := Run(SplitMarkers(text), false,
                             World(old(stream.State()), old(ctl.stdout.State()), old(ctl.console.State())),
                             Setup(ctl.backend, ctl.console.defaultAttributes, stream == ctl.stdout));
              && r == run.1
              && stream.State() == run.0.stream
              && (stream != ctl.stdout ==> ctl.stdout.State() == run.0.stdout)
              && ctl.console.State() == run.0.console
    {
      r := WriteChunks(SplitMarkers(text), ctl);
    }

    /** The loop of `write` over the chunks of the split text. */
    method WriteChunks(chunks: seq<string>, ctl: Controller) returns (r: Outcome<WriteError>)
      modifies stream, ctl.stdout, ctl.console
      ensures var run := Run(chunks, false,
                             World(old(stream.State()), old(ctl.stdout.State()), old(ctl.console.State())),
                             Setup(ctl.backend, ctl.console.defaultAttributes, stream == ctl.stdout));
              && r == run.1
              && stream.State() == run.0.stream
              && (stream != ctl.stdout ==> ctl.stdout.State() == run.0.stdout)
              && ctl.console.State() == run.0.console
    {
      ghost var setup := Setup(ctl.backend, ctl.console.defaultAttributes, stream == ctl.stdout);
      ghost var w0 := World(stream.State(), ctl.stdout.State(), ctl.console.State());
      ghost var kept := ctl.stdout.State();
      var i := 0;
      while i < |chunks|
        invariant 0 <= i <= |chunks|
        invariant Run(chunks[i..], i % 2 == 1, World(stream.State(), if setup.shared then kept else ctl.stdout.State(),
                                            ctl.console.State()), setup)
                  == Run(chunks, false, w0, setup)
      {
        ghost var before := World(stream.State(), if setup.shared then kept else ctl.stdout.State(), ctl.console.State());
        var o := WriteChunk(chunks[i], i % 2 == 1, ctl, kept);
        if o.Fail? {
          LoopFails(chunks, i, before, setup);
          return o;
        }
        LoopStep(chunks, i, before, setup);
        i := i + 1;
      }
      return Pass;
    }

    /**
     * One pass of the loop in `write`: a non-empty chunk is written, or decoded and
     * displayed, and then flushed. `kept` is what the controller's stream is taken to
     * hold while it is the wrapped stream itself.
     */
    method WriteChunk(chunk: string, isBody: bool, ctl: Controller, ghost kept: SinkState) returns (o: Outcome<WriteError>)
      modifies stream, ctl.stdout, ctl.console
      ensures var step := Step(chunk, isBody,
                              World(old(stream.State()), if stream == ctl.stdout then kept else old(ctl.stdout.State()),
                                    old(ctl.console.State())),
                              Setup(ctl.backend, ctl.console.defaultAttributes, stream == ctl.stdout));
              && o == step.1
              && stream.State() == step.0.stream
              && (if stream == ctl.stdout then step.0.stdout == kept else ctl.stdout.State() == step.0.stdout)
              && ctl.console.State() == step.0.console
    {
      if chunk == [] {
        return Pass;
      }
      if !isBody {
        stream.Write(chunk);
      } else {
        var d := ReadCodes(Split(chunk, ';'));
        if d.Err? {
          return Fail(Undecodable(d.error));
        }
        var shown := ctl.Display(DisplayArgs(d.value), d.value.fg, d.value.bg);
        if shown.Fail? {
          return Fail(Invalid(shown.error));
        }
      }
      stream.Flush();
      return Pass;
    }
  }

  /** The loop in `write` after chunk `i` raised nothing: the rest of it runs on. */
  lemma LoopStep(chunks: seq<string>, i: nat, before: World, setup: Setup)
    requires i < |chunks| && Step(chunks[i], i % 2 == 1, before, setup).1.Pass?
    ensures Run(chunks[i + 1..], (i + 1) % 2 == 1, Step(chunks[i], i % 2 == 1, before, setup).0, setup)
            == Run(chunks[i..], i % 2 == 1, before, setup)
  {
    assert chunks[i..][0] == chunks[i] && chunks[i..][1..] == chunks[i + 1..];
    RunCons(chunks[i..], i % 2 == 1, before, setup);
    NextParity(i);
  }

  lemma NextParity(i: nat)
    ensures ((i + 1) % 2 == 1) == !(i % 2 == 1)
  {
  }

  /** The loop in `write` when chunk `i` raises: the write ends there with that exception. */
  lemma LoopFails(chunks: seq<string>, i: nat, before: World, setup: Setup)
    requires i < |chunks| && Step(chunks[i], i % 2 == 1, before, setup).1.Fail?
    ensures Run(chunks[i..], i % 2 == 1, before, setup) == Step(chunks[i], i % 2 == 1, before, setup)
  {
    assert chunks[i..][0] == chunks[i];
  }

  // ---------------------------------------------------------------- properties of a write

  /** The number of non-empty chunks: each is followed by exactly one `flush`. */
  function NonEmpty(chunks: seq<string>): nat
  {
    if chunks == [] then 0 else (if chunks[0] != [] then 1 else 0) + NonEmpty(chunks[1..])
  }

  /** The request a non-empty body is displayed with, unless decoding or validating it raises. */
  function ChunkRequest(chunk: string): Option<Request>
  {
    match DecodeFields(Split(chunk, ';'))
    case Err(_) => None
    case Ok(d) =>
      match FormatCodes(DisplayArgs(d), d.fg, d.bg)
      case Err(_) => None
      case Ok(req) => Some(req)
  }

  /**
   * The requests `write` passes to `display`, in text order: one per non-empty body, up
   * to the first body that raises.
   */
  function Requests(chunks: seq<string>, odd: bool): seq<Request>
  {
    if chunks == [] then []
    else if chunks[0] == [] || !odd then Requests(chunks[1..], !odd)
    else match ChunkRequest(chunks[0])
      case None => []
      case Some(req) => [req] + Requests(chunks[1..], !odd)
  }

  /** The ANSI codes of a sequence of requests, concatenated. */
  function EncodeAll(reqs: seq<Request>): string
  {
    if reqs == [] then [] else Encode(reqs[0]) + EncodeAll(reqs[1..])
  }

  /** A plain chunk and a body that raise nothing hand their world on to the rest of the loop. */
  lemma RunTwo(a: string, b: string, rest: seq<string>, w: World, setup: Setup)
    requires Step(b, true, Step(a, false, w, setup).0, setup).1.Pass?
    ensures Run([a, b] + rest, false, w, setup)
            == Run(rest, false, Step(b, true, Step(a, false, w, setup).0, setup).0, setup)
  {
    var chunks := [a, b] + rest;
    var w1 := Step(a, false, w, setup).0;
    assert Run(chunks, false, w, setup) == Run([b] + rest, true, w1, setup) by {
      assert chunks[0] == a && chunks[1..] == [b] + rest;
      PlainStepPasses(a, w, setup);
      RunCons(chunks, false, w, setup);
    }
    assert Run([b] + rest, true, w1, setup) == Run(rest, false, Step(b, true, w1, setup).0, setup) by {
      var tail := [b] + rest;
      assert tail[0] == b && tail[1..] == rest;
      RunCons(tail, true, w1, setup);
    }
  }

  /** Writing a plain chunk never raises. */
  lemma PlainStepPasses(chunk: string, w: World, setup: Setup)
    ensures Step(chunk, false, w, setup).1 == Pass
  {
  }

  /** A chunk that raises nothing hands its world on to the rest of the loop. */
  lemma RunCons(chunks: seq<string>, odd: bool, w: World, setup: Setup)
    requires chunks != [] && Step(chunks[0], odd, w, setup).1.Pass?
    ensures Run(chunks, odd, w, setup) == Run(chunks[1..], !odd, Step(chunks[0], odd, w, setup).0, setup)
  {
  }

  /**
   * How many chunks the loop gets through: all of them when the write completes, or
   * those before the chunk that raises.
   */
  function Processed(chunks: seq<string>, odd: bool, w: World, setup: Setup): (n: nat)
    ensures n <= |chunks|
    ensures Run(chunks, odd, w, setup).1.Pass? <==> n == |chunks|
    decreases |chunks|
  {
    if chunks == [] then 0
    else
      var step := Step(chunks[0], odd, w, setup);
      if step.1.Fail? then 0 else 1 + Processed(chunks[1..], !odd, step.0, setup)
  }

  /**
   * When the wrapped stream is not the controller's stream, the stream receives exactly
   * the plain chunks the loop got through, also when a later marker raises; a write
   * that completes sends all of them.
   */
  lemma {:induction false} RunWritesPlainText(chunks: seq<string>, odd: bool, w: World, setup: Setup)
    requires !setup.shared
    ensures var run := Run(chunks, odd, w, setup);
            run.0.stream.text == w.stream.text + PlainText(chunks[..Processed(chunks, odd, w, setup)], odd)
    ensures var run := Run(chunks, odd, w, setup);
            run.1.Pass? ==> run.0.stream.text == w.stream.text + PlainText(chunks, odd)
    decreases |chunks|
  {
    var n := Processed(chunks, odd, w, setup);
    if n == 0 {
      NoneProcessed(chunks, odd, w, setup);
      assert chunks[..0] == [];
      assert w.stream.text + [] == w.stream.text;
    } else {
      var step := Step(chunks[0], odd, w, setup);
      StepWritesPlainText(chunks[0], odd, w, setup);
      RunWritesPlainText(chunks[1..], !odd, step.0, setup);
      var piece := if !odd then chunks[0] else [];
      PlainTextOfPrefix(chunks, odd, n);
      Regroup(w.stream.text, piece, PlainText(chunks[1..][..n - 1], !odd));
    }
    assert chunks[..|chunks|] == chunks;
  }

  /** A loop that gets through no chunk leaves the world as it found it. */
  lemma NoneProcessed(chunks: seq<string>, odd: bool, w: World, setup: Setup)
    requires Processed(chunks, odd, w, setup) == 0
    ensures Run(chunks, odd, w, setup).0 == w
  {
  }

  /** The plain text of the first `n` chunks: the first chunk's share, then the next `n - 1`. */
  lemma PlainTextOfPrefix(chunks: seq<string>, odd: bool, n: nat)
    requires 1 <= n <= |chunks|
    ensures PlainText(chunks[..n], odd)
            == (if !odd then chunks[0] else []) + PlainText(chunks[1..][..n - 1], !odd)
    ensures NonEmpty(chunks[..n]) == (if chunks[0] != [] then 1 else 0) + NonEmpty(chunks[1..][..n - 1])
  {
    var p := chunks[..n];
    assert p[0] == chunks[0];
    assert p[1..] == chunks[1..][..n - 1];
  }

  /** ... and flushes it once per non-empty chunk the loop got through. */
  lemma {:induction false} RunFlushesEachChunk(chunks: seq<string>, odd: bool, w: World, setup: Setup)
    requires !setup.shared
    ensures var run := Run(chunks, odd, w, setup);
            run.0.stream.flushes == w.stream.flushes + NonEmpty(chunks[..Processed(chunks, odd, w, setup)])
    ensures var run := Run(chunks, odd, w, setup);
            run.1.Pass? ==> run.0.stream.flushes == w.stream.flushes + NonEmpty(chunks)
    decreases |chunks|
  {
    var n := Processed(chunks, odd, w, setup);
    if n == 0 {
      NoneProcessed(chunks, odd, w, setup);
      assert chunks[..0] == [];
    } else {
      var step := Step(chunks[0], odd, w, setup);
      StepWritesPlainText(chunks[0], odd, w, setup);
      RunFlushesEachChunk(chunks[1..], !odd, step.0, setup);
      PlainTextOfPrefix(chunks, odd, n);
    }
    assert chunks[..|chunks|] == chunks;
  }

  lemma StepWritesPlainText(chunk: string, isBody: bool, w: World, setup: Setup)
    requires !setup.shared
    ensures var step := Step(chunk, isBody, w, setup);
            step.1.Pass? ==> step.0.stream.text == w.stream.text + (if isBody then [] else chunk)
                             && step.0.stream.flushes == w.stream.flushes + (if chunk != [] then 1 else 0)
  {
    assert w.stream.text + [] == w.stream.text;
  }

  /** `write` on its own stream: the text with every marker deleted, one flush per chunk. */
  lemma WriteStripsMarkers(text: string, w: World, setup: Setup)
    requires !setup.shared
    ensures var run := Run(SplitMarkers(text), false, w, setup);
            run.1.Pass? ==> run.0.stream.text == w.stream.text + Stripped(text)
                            && run.0.stream.flushes == w.stream.flushes + NonEmpty(SplitMarkers(text))
  {
    RunWritesPlainText(SplitMarkers(text), false, w, setup);
    RunFlushesEachChunk(SplitMarkers(text), false, w, setup);
    PlainTextOfSplit(text);
  }

  /**
   * With the ANSI controller on another stream, the markers are replayed there in text
   * order: the code of each request displayed, each followed by a flush.
   */
  lemma {:induction false} AnsiReplaysMarkers(chunks: seq<string>, odd: bool, w: World, setup: Setup)
    requires !setup.shared && setup.backend == Ansi
    ensures var run := Run(chunks, odd, w, setup);
            run.1.Pass? ==> run.0.stdout.text == w.stdout.text + EncodeAll(Requests(chunks, odd))
                            && run.0.stdout.flushes == w.stdout.flushes + |Requests(chunks, odd)|
                            && run.0.console == w.console
    decreases |chunks|
  {
    if chunks != [] {
      var step := Step(chunks[0], odd, w, setup);
      if step.1.Pass? {
        AnsiStep(chunks[0], odd, w, setup);
        RunCons(chunks, odd, w, setup);
        AnsiReplaysMarkers(chunks[1..], !odd, step.0, setup);
        if chunks[0] != [] && odd {
          var req := ChunkRequest(chunks[0]).value;
          assert Requests(chunks, odd) == [req] + Requests(chunks[1..], !odd);
          assert EncodeAll(Requests(chunks, odd)) == Encode(req) + EncodeAll(Requests(chunks[1..], !odd));
        } else {
          assert Requests(chunks, odd) == Requests(chunks[1..], !odd);
        }
      }
    }
  }

  /** One chunk with the ANSI controller on another stream: a body's code is written there and flushed. */
  lemma AnsiStep(chunk: string, odd: bool, w: World, setup: Setup)
    requires !setup.shared && setup.backend == Ansi
    ensures var step := Step(chunk, odd, w, setup);
            step.1.Pass? ==> step.0.console == w.console
                             && (chunk != [] && odd ==>
                                   ChunkRequest(chunk).Some?
                                   && step.0.stdout == Flushed(Written(w.stdout, Encode(ChunkRequest(chunk).value))))
                             && (chunk == [] || !odd ==> step.0.stdout == w.stdout)
  {
  }

  /** With the basic controller a write touches neither the controller's stream nor the console. */
  lemma {:induction false} BasicOnlyWritesText(chunks: seq<string>, odd: bool, w: World, setup: Setup)
    requires setup.backend == Basic
    ensures Run(chunks, odd, w, setup).0.stdout == w.stdout && Run(chunks, odd, w, setup).0.console == w.console
    decreases |chunks|
  {
    if chunks != [] {
      var (w1, o) := Step(chunks[0], odd, w, setup);
      if o.Pass? {
        BasicOnlyWritesText(chunks[1..], !odd, w1, setup);
      }
    }
  }

  /** What `readcodes` returns always passes `formatcodes`: names and colours come from the tables. */
  lemma DecodedIsValid(fields: seq<string>)
    requires DecodeFields(fields).Ok?
    ensures var d := DecodeFields(fields).value;
            FormatCodes(DisplayArgs(d), d.fg, d.bg).Ok?
  {
    if |fields| > 0 {
      var nums := ParseAll(fields).value;
      DecodeOfParsed(fields, nums);
      DisplayNamesFromTable(AttrNumbers(nums));
    }
  }

  lemma {:induction false} DisplayNamesFromTable(dcodes: seq<nat>)
    requires DisplayNames(dcodes).Ok?
    ensures AllDisplayCodes(DisplayNames(dcodes).value)
  {
    if dcodes != [] {
      DisplayNamesFromTable(dcodes[1..]);
    }
  }

  /** The only exceptions a write can raise come from `readcodes`, never from `display`. */
  lemma {:induction false} RunFailsOnlyDecoding(chunks: seq<string>, odd: bool, w: World, setup: Setup)
    ensures Run(chunks, odd, w, setup).1.Fail? ==> Run(chunks, odd, w, setup).1.error.Undecodable?
    decreases |chunks|
  {
    if chunks != [] {
      var (w1, o) := Step(chunks[0], odd, w, setup);
      if chunks[0] != [] && odd && DecodeFields(Split(chunks[0], ';')).Ok? {
        DecodedIsValid(Split(chunks[0], ';'));
      }
      if o.Pass? {
        RunFailsOnlyDecoding(chunks[1..], !odd, w1, setup);
      }
    }
  }

  /** The empty marker ESC [ m, which is what `color()` returns, changes nothing at all. */
  lemma EmptyMarkerDoesNothing(w: World, setup: Setup)
    ensures Run(SplitMarkers(Csi + "m"), false, w, setup) == (w, Pass)
  {
    MarkerSplits(false, [], false, []);
    assert MarkerText(false, [], false) + [] == Csi + "m";
    assert SplitMarkers(Csi + "m") == [[], [], []];
    assert Run([[]], false, w, setup) == (w, Pass);
    var e: string := [];
    assert [e, e, e][1..] == [e, e] && [e, e][1..] == [e];
  }

  /**
   * A marker whose body has an empty field, as in `1;;2` or `1;`, raises ValueError from
   * `int('')` and changes nothing; the rest of the text is not written.
   */
  lemma EmptyFieldAborts(body: string, rest: seq<string>, odd: bool, w: World, setup: Setup)
    requires IsBody(body) && body != [] && [] in Split(body, ';') && odd
    ensures Run([body] + rest, odd, w, setup) == (w, Fail(Undecodable(NotAnInteger([]))))
  {
    EmptyFieldRaises(body);
    SplitBodyFields(body);
    ParseAllFails(Split(body, ';'));
  }

  /**
   * Writing `color(...)` between two texts: the plain text before it is written, then the
   * controller displays the very request `color` encoded, and the scan goes on after it.
   * This holds for attributes drawn from default, bright and dim.
   */
  lemma WriteColor(p: string, req: Request, q: string, w: World, setup: Setup)
    requires Escape !in p && StartOfHeading !in p && (q == [] || q[0] != StartOfText)
    requires CodeNumbers(req) != []
    requires forall i :: 0 <= i < |req.codes| ==> req.codes[i] in {Default, Bright, Dim}
    ensures var wp := Step(p, false, w, setup).0;
            var wd := Restyled(wp, setup, req);
            Run(SplitMarkers(p + Encode(req) + q), false, w, setup)
            == Run(SplitMarkers(q), false, wd.(stream := Flushed(wd.stream)), setup)
  {
    var wp := Step(p, false, w, setup).0;
    var wd := Restyled(wp, setup, req);
    var wb := wd.(stream := Flushed(wd.stream));
    var rest := SplitMarkers(q);
    ColorChunks(p, req, q);
    ColorStep(req, wp, setup);
    assert Step(SgrBody(req), true, wp, setup) == (wb, Pass);
    RunTwo(p, SgrBody(req), rest, w, setup);
    assert Run([p, SgrBody(req)] + rest, false, w, setup) == Run(rest, false, wb, setup);
  }

  /** `color(...)` between plain texts is cut into the text before it and its body. */
  lemma ColorChunks(p: string, req: Request, q: string)
    requires Escape !in p && StartOfHeading !in p && (q == [] || q[0] != StartOfText)
    requires CodeNumbers(req) != []
    ensures SgrBody(req) != []
    ensures SplitMarkers(p + Encode(req) + q) == [p, SgrBody(req)] + SplitMarkers(q)
  {
    EncodeIsMarker(req);
    PlainThenMarker(p, SgrBody(req), q);
  }

  /** Plain text, then a marker: the text is one chunk, the body the next. */
  lemma PlainThenMarker(p: string, body: string, q: string)
    requires Escape !in p && StartOfHeading !in p && (q == [] || q[0] != StartOfText)
    requires IsBody(body)
    ensures SplitMarkers(p + MarkerText(false, body, false) + q) == [p, body] + SplitMarkers(q)
  {
    MarkerSplits(false, body, false, q);
    Regroup(p, MarkerText(false, body, false), q);
    PlainPrefix(p, MarkerText(false, body, false) + q);
    FirstChunkJoined(p, body, SplitMarkers(q));
  }

  lemma FirstChunkJoined(p: string, body: string, rest: seq<string>)
    ensures var y := [[], body] + rest;
            [p + y[0]] + y[1..] == [p, body] + rest
  {
    var y := [[], body] + rest;
    assert p + y[0] == p;
    assert y[1..] == [body] + rest;
  }

  /** The code of a request with at least one parameter is a marker with a non-empty body. */
  lemma EncodeIsMarker(req: Request)
    requires CodeNumbers(req) != []
    ensures IsBody(SgrBody(req)) && SgrBody(req) != []
    ensures Encode(req) == MarkerText(false, SgrBody(req), false)
  {
    var ds := Decimals(CodeNumbers(req));
    JoinDecimalsIsBody(ds);
    assert |ds[0]| > 0;
    JoinKeepsFirst(ds);
  }

  lemma JoinKeepsFirst(ds: seq<string>)
    requires ds != []
    ensures |Join(";", ds)| >= |ds[0]|
  {
  }

  /** The body of `color(...)` is displayed as the very request it encodes, then flushed. */
  lemma ColorStep(req: Request, w: World, setup: Setup)
    requires CodeNumbers(req) != []
    requires forall i :: 0 <= i < |req.codes| ==> req.codes[i] in {Default, Bright, Dim}
    ensures SgrBody(req) != []
    ensures var wd := Restyled(w, setup, req);
            Step(SgrBody(req), true, w, setup) == (wd.(stream := Flushed(wd.stream)), Pass)
  {
    ColorChunks([], req, []);
    ReadCodesRecoversRequest(req);
    ColorRequestValidates(req);
  }

  /** The names and colour names of a request validate back to that request. */
  lemma ColorRequestValidates(req: Request)
    ensures FormatCodes(Many(AttrNames(req.codes)), OptColorName(req.fg), OptColorName(req.bg)) == Ok(req)
  {
    var r := FormatCodes(Many(AttrNames(req.codes)), OptColorName(req.fg), OptColorName(req.bg));
    assert AllDisplayCodes(AttrNames(req.codes)) by {
      AttrNamesValid(req.codes);
    }
    AttrNamesInjective(r.value.codes, req.codes);
    OptColorNameInjective(r.value.fg, req.fg);
    OptColorNameInjective(r.value.bg, req.bg);
  }

  lemma AttrNamesValid(codes: seq<Attr>)
    ensures AllDisplayCodes(AttrNames(codes))
  {
  }

  lemma AttrNamesInjective(a: seq<Attr>, b: seq<Attr>)
    requires AttrNames(a) == AttrNames(b)
    ensures a == b
  {
    forall i | 0 <= i < |a| ensures a[i] == b[i] {
      assert AttrName(a[i]) == AttrNames(a)[i] == AttrNames(b)[i] == AttrName(b[i]);
      AttrNameInjective(a[i], b[i]);
    }
  }

  lemma AttrNameInjective(a: Attr, b: Attr)
    requires AttrName(a) == AttrName(b)
    ensures a == b
  {
  }

  lemma OptColorNameInjective(a: Option<Color>, b: Option<Color>)
    requires OptColorName(a) == OptColorName(b)
    ensures a == b
  {
  }
}
