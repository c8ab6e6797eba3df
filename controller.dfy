/**
 * The controller object `get_wrapper` selects (libs/terminate/control.py): `Control`
 * does nothing, `ANSI` writes the SGR sequence to the library's standard output stream
 * and flushes it, and the Windows controller changes the console's attribute word. The
 * three classes are one class here, tagged with its backend; the standard output
 * stream and the console are explicit objects instead of module globals.
 */
module Controllers {
  import opened Wrappers
  import opened Control
  import opened WinConsole
  import opened Sinks

  /** What the controller's `_display` does to the output stream and the console. */
  function Shown(backend: Backend, out: SinkState, console: Console, dflt: Word, req: Request): (SinkState, Console)
  {
    match backend
    case Basic => (out, console)
    case Ansi => (Flushed(Written(out, Encode(req))), console)
    case WinCTypes => (out, Displayed(console, dflt, req.codes, req.fg, req.bg))
  }

  /** What the controller's `reset` does to the output stream. */
  function ResetShown(backend: Backend, out: SinkState): SinkState
  {
    if backend == Ansi then Written(out, ResetCode) else out
  }

  class Controller {
    const backend: Backend
    /** The stream `abstract.stdout` wraps, which the ANSI controller writes to. */
    const stdout: Sink
    /** The console the Windows controller drives. */
    const console: Win

    constructor(backend: Backend, stdout: Sink, console: Win)
      ensures this.backend == backend && this.stdout == stdout && this.console == console
    {
      this.backend := backend;
      this.stdout := stdout;
      this.console := console;
    }

    /**
     * `Control.display`: validate with `formatcodes`, raising ValueError before anything
     * happens, then let the backend's `_display` act on the validated request.
     */
    method Display(codes: CodesArg, fg: Option<string>, bg: Option<string>) returns (r: Outcome<StyleError>)
      modifies stdout, console
      ensures var f := FormatCodes(codes, fg, bg);
              && (f.Err? ==> r == Fail(f.error) && stdout.State() == old(stdout.State())
                             && console.State() == old(console.State()))
              && (f.Ok? ==> r == Pass
                            && stdout.State() == Shown(backend, old(stdout.State()), old(console.State()), console.defaultAttributes, f.value).0
                            && console.State() == Shown(backend, old(stdout.State()), old(console.State()), console.defaultAttributes, f.value).1)
    {
      var f := FormatCodes(codes, fg, bg);
      if f.Err? {
        return Fail(f.error);
      }
      var req := f.value;
      match backend {
        case Basic =>
        case Ansi =>
          var code := DisplayCode(codes, fg, bg);
          stdout.Write(code.value);
          stdout.Flush();
        case WinCTypes =>
          console.Display(req.codes, req.fg, req.bg);
      }
      return Pass;
    }

    /** `reset`: the ANSI controller writes ESC c without flushing; the others do nothing. */
    method Reset()
      modifies stdout
      ensures stdout.State() == ResetShown(backend, old(stdout.State()))
    {
      if backend == Ansi {
        stdout.Write(ResetCode);
      }
    }
  }

  /** The ANSI controller's output for a valid request is exactly `displaycode` of it. */
  lemma AnsiWritesDisplayCode(out: SinkState, console: Console, dflt: Word,
                              codes: CodesArg, fg: Option<string>, bg: Option<string>)
    requires FormatCodes(codes, fg, bg).Ok?
    ensures var s := Shown(Ansi, out, console, dflt, FormatCodes(codes, fg, bg).value).0;
            && DisplayCode(codes, fg, bg).Ok?
            && s.text == out.text + DisplayCode(codes, fg, bg).value
            && s.flushes == out.flushes + 1
  {
    var req := FormatCodes(codes, fg, bg).value;
    var s := DisplayCode(codes, fg, bg).value;
    assert s[2..|s| - 1] == SgrBody(req);
    assert s == s[..2] + s[2..|s| - 1] + [s[|s| - 1]];
  }
}
