# django-lazypony terminal styling, modelled in Dafny

This project models the terminal-styling library of django-lazypony (`libs/terminate/`)
and three helpers from `libs/__init__.py`. The library works in four layers, and each
layer here mirrors the Python code it comes from:

- **Style control** (`control.dfy`, `win.dfy`, `controller.dfy`).
  - `formatcodes` validates a request: attribute names drawn from `DISPLAY_CODES`, and foreground and background names drawn from `COLORS`.
  - `displaycode` encodes a request as an ANSI Select Graphic Rendition sequence (ECMA-48, section 8.3.117): `ESC [ n;n;… m`.
  - `readcodes` decodes the numbers of such a sequence back into names.
  - `get_wrapper` picks a backend from `TERM`, the platform and the bindings available.
  - The Windows controller `Win` keeps the console's 16-bit attribute word (colours and intensities in its low byte), four flags (`hidden_output`, `reverse_output`, `reverse_input`, `dim_output`) and the remembered foreground colour `real_fg`, and its `_display` rewrites them. It is a class whose `attrs` field stands for the console; `State()` exposes the whole state as a `Console` value.
  - The controller (`Controllers.Controller`) dispatches `display` and `reset` to the Basic, ANSI or Windows backend.
- **Marker-scanning output stream** (`abstract.dfy`, `sinks.dfy`).
  - `OutputStream.write` splits its text on the marker pattern `\x01?\x1b\[([0-9;]*)m\x02?`. Plain chunks go to the wrapped stream. Marker bodies are decoded by `readcodes` and handed to the controller. The stream is flushed after every non-empty chunk.
  - The regular expression is a hand-written scanner (`MatchAt`, `SplitMarkers`).
  - The wrapped file object is a `Sink` holding the text written so far and a flush counter.
  - `color` is modelled as `ColorMarker`.
- **Prompts** (`prompt.dfy`).
  - `query` normalises its answers in place, builds the prompt line, then reads lines until one matches. Matching ignores case if asked to, and an empty line gives the default.
  - `input_object` reads lines until `cast` accepts one, and complains after each rejection.
  - Interactive input is a finite sequence of lines. What is written appears as a trace of `Event`s.
- **Helpers** (`libs.dfy`, `strings.dfy`).
  - `libs.dfy` holds `check_yes_no`, `clean_packages_names` and `create_dirs`.
  - `strings.dfy` holds the Python string built-ins the core relies on: `str(int)`, `int(str)`, `split`, `join`, `lower` and `strip`.

Each operation that changes state is a method on a class, proved against a specification function on values:

| Class | Specification function |
|---|---|
| `Win` | `Displayed` |
| `OutputStream` | `Run` |
| `Prompt.Query` | `QueryRun` |
| `InputObject` | `Reading` |
| `ReadCodes` | `DecodeFields` |

The lemmas then state the library's promises about those functions.

## Model

| member | source | states |
|---|---|---|
| Strings.Decimal | libs/terminate/control.py:128 | `str(n)` is a non-empty run of digits with no leading zero |
| Strings.ParseDecimal | libs/terminate/control.py:139 | `int(s)` succeeds exactly when `s` is a non-empty run of digits |
| Strings.ParseDecimalOfDecimal | libs/terminate/control.py:128-139 | `int(str(n)) == n`: the numbers `displaycode` prints are read back unchanged |
| Strings.SplitJoin | libs/terminate/abstract.py:84 | splitting on `;` what was joined with `;` gives back the parts when no part holds `;` |
| Strings.Lower | libs/__init__.py:46 | `lower()` maps every character through the ASCII case map and keeps the length |
| Strings.LowerIdempotent | libs/__init__.py:46 | `lower()` yields lowercase text, is idempotent, and fixes lowercase text |
| Strings.TrimLeft | libs/__init__.py:46 | the result is a suffix, everything removed is whitespace, and it does not start with whitespace |
| Strings.TrimRight | libs/__init__.py:46 | the result is a prefix, everything removed is whitespace, and it does not end with whitespace |
| Strings.Trim | libs/__init__.py:46 | `strip()` is no longer than its input and neither starts nor ends with whitespace |
| Strings.TrimIsPiece | libs/__init__.py:46 | `strip()` is a contiguous piece of its input between two all-whitespace margins |
| Strings.TrimKeepsLower | libs/__init__.py:46 | stripping lowercase text leaves it lowercase |
| Strings.TrimIdempotent | libs/__init__.py:46 | `strip()` is idempotent |
| Control.ParseAttr | libs/terminate/control.py:54-56 | an attribute name is accepted exactly when it is in DISPLAY_CODES, and its name round-trips |
| Control.ParseColor | libs/terminate/control.py:57-60 | a colour name is accepted exactly when it is in COLORS, and its name round-trips |
| Control.ParseAttrs | libs/terminate/control.py:54-56 | a list of names is accepted iff every name is in DISPLAY_CODES; otherwise the error names a bad one |
| Control.ParseColorArg | libs/terminate/control.py:57-60 | `None` or a name in COLORS is accepted; any other name raises ValueError naming it |
| Control.FormatCodes | libs/terminate/control.py:48-61 | Ok iff all codes and both colours are valid (a bare string counts as a one-element list); names are kept; the codes are checked first, then fg, then bg |
| Control.JoinDecimalsIsBody | libs/terminate/control.py:131 | numbers joined with `;` form a marker body (digits and semicolons only) |
| Control.DisplayCode | libs/terminate/control.py:124-131 | raises exactly when `formatcodes` does, with its error; otherwise `ESC [` + attribute numbers, then 30+fg, then 40+bg, joined by `;`, + `m` |
| Control.DisplayCodeEmpty | libs/terminate/control.py:125-131 | an empty request encodes as `ESC [ m` |
| Control.DisplayNames | libs/terminate/control.py:149 | indexing DISPLAY_CODES by number can fail only with IndexError |
| Control.ReadCodes | libs/terminate/control.py:133-152 | the loop over the fields computes `DecodeFields`: attribute names, last foreground, last background |
| Control.ParseAllDecimals | libs/terminate/control.py:139 | every printed number parses back to itself |
| Control.ParseAllFails | libs/terminate/control.py:139 | decoding raises ValueError exactly when some field is not a decimal number |
| Control.ClassifyRequestNumbers | libs/terminate/control.py:140-149 | the numbers of a request classify back into its attribute codes, its foreground and its background |
| Control.DisplayNamesOfCodes | libs/terminate/control.py:149 | the attribute numbers read back succeed exactly when neither reverse (7) nor hidden (8) is present; 4 reads as 'blink', 5 as 'reverse' |
| Control.ReadCodesOfDisplayCode | libs/terminate/control.py:134-152 | decoding the body of `displaycode(req)` recovers fg and bg exactly, and the attributes as read back by number; reverse or hidden raise IndexError |
| Control.ReadCodesRecoversRequest | libs/terminate/control.py:134-152 | for attributes among default, bright and dim, decoding the body of `displaycode(req)` gives back the request |
| Control.DropsUnknownNumber | libs/terminate/control.py:140-147 | a number in none of the three tables is silently dropped |
| Control.LastForegroundWins | libs/terminate/control.py:140-141 | a later foreground number replaces the earlier one, as `COLORS[n % 10]` |
| Control.LastBackgroundWins | libs/terminate/control.py:142-143 | a later background number replaces the earlier one, as `COLORS[n % 10]` |
| Control.EmptyFieldRaises | libs/terminate/control.py:138-139 | a marker body raises ValueError from `int('')` exactly when it has an empty field |
| Control.GetWrapper | libs/terminate/control.py:365-387 | ANSI for an ANSI TERM or cygwin off win32; WinCTypes on win32 with ctypes; the Win32 branch raises NameError |
| WinConsole.ConsoleColorTables | libs/terminate/control.py:201-220 | each colour's FG value is its RGB index remapped to console bit order, and BG is FG shifted up a nibble |
| WinConsole.SplitAttributes | libs/terminate/control.py:229-240 | the four parts lie in their own bit fields and `_cat_attributes(*_split_attributes(a)) == a & 0xff` |
| WinConsole.SwappedTwice | libs/terminate/control.py:285-287 | exchanging the fg and bg halves twice is the identity |
| WinConsole.Undimmed | libs/terminate/control.py:245-252 | undimming clears dim and puts `real_fg` into the foreground bits (the background bits when the word is read reversed), keeping the other low-byte bits and clearing the high byte |
| WinConsole.Win.constructor | libs/terminate/control.py:347-350 | a new console keeps the current word as `default_attributes`, with every flag clear |
| WinConsole.Win.Undim | libs/terminate/control.py:245-252 | the new state is `Undimmed` of the old one |
| WinConsole.Win.DisplayDefault | libs/terminate/control.py:254-260 | `default` clears the four flags, resets `real_fg` and rewrites the default word |
| WinConsole.Win.DisplayBright | libs/terminate/control.py:262-264 | `bright` undims and contributes the foreground intensity bit |
| WinConsole.Win.DisplayDim | libs/terminate/control.py:266-267 | `dim` only sets `dim_output` |
| WinConsole.Win.DisplayReverse | libs/terminate/control.py:269-270 | `reverse` only sets `reverse_output` |
| WinConsole.Win.DisplayHidden | libs/terminate/control.py:272-273 | `hidden` only sets `hidden_output` |
| WinConsole.Win.DisplayCode | libs/terminate/control.py:277-283 | one code's handler changes the state and returns the bits given by `ApplyCode` |
| WinConsole.Win.Display | libs/terminate/control.py:275-308 | `_display` takes the console from its old state to `Displayed(old, codes, fg, bg)` |
| WinConsole.Win.ComposeWord | libs/terminate/control.py:284-295 | the word read (un-swapped if reversed) is combined with the loop bits and explicit colours; an explicit fg becomes `real_fg` |
| WinConsole.Win.WriteFinished | libs/terminate/control.py:296-308 | the written word applies dim, then reverse, then hidden, and `reverse_input` follows `reverse_output` |
| WinConsole.Win.Reset | libs/terminate/control.py:310-312 | `reset` on the Windows console changes nothing |
| WinConsole.DisplayDefaultRestores | libs/terminate/control.py:254-260 | `display('default')` clears all flags, sets `real_fg = default & 7` and shows `default & 0xff` |
| WinConsole.EmptyDisplayKeepsWord | libs/terminate/control.py:275-308 | `display()` with the flags clear shows the current word's low byte again and changes nothing else (the high byte is cleared) |
| WinConsole.DisplayedSettled | libs/terminate/control.py:275-308 | after any display `reverse_input` implies `reverse_output` and `real_fg` is a colour, if this held before |
| WinConsole.RedisplayIsIdentity | libs/terminate/control.py:284-308 | after any display, an empty `display()` changes nothing |
| WinConsole.FinishedIsStable | libs/terminate/control.py:296-308 | reading back a written word, un-swapping it and finishing it again writes the same word |
| WinConsole.ReverseIsSticky | libs/terminate/control.py:285-304 | the first `reverse` swaps the halves of the word; a second one yields the same state, it does not undo the first |
| WinConsole.DimShowsIntenseBlack | libs/terminate/control.py:297-300 | with dim and neither reverse nor hidden, the foreground is black with the intensity bit set |
| WinConsole.HiddenMatchesBackground | libs/terminate/control.py:305-307 | with hidden, the foreground colour and intensity equal the background's |
| WinConsole.ColorsShown | libs/terminate/control.py:288-294 | explicit colours are shown as given when nothing else intervenes, and fg becomes `real_fg` |
| WinConsole.LoopColor | libs/terminate/control.py:276-283 | the code loop contributes the intensity bit exactly when `bright` is requested |
| WinConsole.DimThenBright | libs/terminate/control.py:245-267 | `display('dim')` shows intense black; a following `display('bright')` shows `real_fg` with the intensity bit again and keeps the background |
| WinConsole.BrightShowsIntense | libs/terminate/control.py:262-264 | `bright` without reverse or hidden shows intense text |
| Sinks.Sink.Write | libs/terminate/abstract.py:71-72 | the wrapped stream's text grows by exactly what is written |
| Sinks.Sink.Flush | libs/terminate/abstract.py:98-99 | flushing counts one flush and keeps the text |
| Controllers.Controller.Display | libs/terminate/control.py:33-39 | an invalid request raises before any output; a valid one is displayed by the selected backend |
| Controllers.Controller.Reset | libs/terminate/control.py:116-122 | the ANSI backend writes `ESC c` without flushing; the others do nothing |
| Controllers.AnsiWritesDisplayCode | libs/terminate/control.py:112-114 | the ANSI backend writes exactly `displaycode` of the request, then flushes once |
| Abstract.BodyRun | libs/terminate/abstract.py:31 | `[0-9;]*` matches greedily: the longest run of digits and semicolons |
| Abstract.EscMatch | libs/terminate/abstract.py:31 | a match starting at ESC spans `ESC [ body m` plus an optional `\x02`, with a well-formed body |
| Abstract.MatchAt | libs/terminate/abstract.py:31 | a match at a position has length at least 3 and a body of digits and semicolons |
| Abstract.MarkerRecognised | libs/terminate/abstract.py:31 | every marker `\x01? ESC [ body m \x02?` is matched whole |
| Abstract.SplitMarkers | libs/terminate/abstract.py:77 | `re.split` with one group yields an odd number of parts, with marker bodies at odd positions |
| Abstract.PlainTextOfSplit | libs/terminate/abstract.py:77-82 | the plain chunks of the split, concatenated, are the text with every marker deleted |
| Abstract.PlainPrefix | libs/terminate/abstract.py:77 | text with no ESC and no `\x01` joins the first chunk and passes through unchanged |
| Abstract.PlainTextUnchanged | libs/terminate/abstract.py:77 | marker-free text is one chunk and is written unchanged |
| Abstract.MarkerSplits | libs/terminate/abstract.py:77 | a leading marker splits off an empty chunk and its body, and adds no visible text |
| Abstract.ColorMarker | libs/terminate/abstract.py:33-64 | `color` raises ValueError exactly when `formatcodes` does, with its error; otherwise it is `displaycode`'s sequence, whatever the backend |
| Abstract.EncodeIsMarker | libs/terminate/control.py:131 | every non-empty `displaycode` sequence is a marker the stream recognises |
| Abstract.OutputStream.constructor | libs/terminate/abstract.py:68-69 | the stream wraps the given file object |
| Abstract.OutputStream.RawWrite | libs/terminate/abstract.py:71-72 | `raw_write` forwards the text unchanged, with no marker processing |
| Abstract.OutputStream.Flush | libs/terminate/abstract.py:98-99 | `flush` flushes the wrapped stream once |
| Abstract.OutputStream.Write | libs/terminate/abstract.py:76-93 | `write` leaves the stream, the console and the result as `Run` over the split text gives them |
| Abstract.OutputStream.WriteChunks | libs/terminate/abstract.py:78-93 | the chunk loop alternates plain and marker chunks and stops at the first decoding error |
| Abstract.OutputStream.WriteChunk | libs/terminate/abstract.py:80-92 | one chunk is skipped if empty, written and flushed if plain, and decoded and displayed, then flushed, if a body |
| Abstract.Processed | libs/terminate/abstract.py:79-93 | the loop gets through every chunk exactly when the write raises nothing; otherwise it stops at the chunk that raises |
| Abstract.RunWritesPlainText | libs/terminate/abstract.py:79-93 | when the stream is not the controller's, it receives exactly the plain chunks the loop got through, in order, also when a later marker raises |
| Abstract.RunFlushesEachChunk | libs/terminate/abstract.py:80-92 | when the stream is not the controller's, it is flushed exactly once per non-empty chunk the loop got through, also when a later marker raises |
| Abstract.WriteStripsMarkers | libs/terminate/abstract.py:76-93 | when the stream is not the controller's, a write that raises nothing sends the text with every marker deleted, with one flush per non-empty chunk |
| Abstract.AnsiReplaysMarkers | libs/terminate/abstract.py:83-86 | under ANSI and when the stream is not the controller's stdout, each body of a write that raises nothing is re-encoded and written to stdout in text order, with one flush each |
| Abstract.BasicOnlyWritesText | libs/terminate/abstract.py:79-93 | under Basic, no styling reaches stdout or the console |
| Abstract.DecodedIsValid | libs/terminate/abstract.py:85-86 | whatever `readcodes` returns passes `formatcodes` |
| Abstract.RunFailsOnlyDecoding | libs/terminate/abstract.py:84-86 | the only errors a write can raise are decoding errors |
| Abstract.EmptyMarkerDoesNothing | libs/terminate/abstract.py:80 | writing `ESC [ m` changes nothing and calls no display |
| Abstract.EmptyFieldAborts | libs/terminate/abstract.py:84-85 | a body with an empty field raises ValueError and stops the write with nothing further done |
| Abstract.ColorChunks | libs/terminate/abstract.py:77 | text, a `color` marker and more text split into the text, the body and the rest |
| Abstract.PlainThenMarker | libs/terminate/abstract.py:77 | plain text then a marker split into that text and the marker's body |
| Abstract.ColorStep | libs/terminate/abstract.py:84-86 | a `color` marker written to the stream applies the same request it was made from |
| Abstract.WriteColor | libs/terminate/abstract.py:76-93 | writing text around a `color` marker writes the text and applies the request |
| Abstract.ColorRequestValidates | libs/terminate/control.py:48-61 | the names of a request pass `formatcodes` and give back that request |
| Prompt.StyleMarkers | libs/terminate/prompt/__init__.py:15-16 | the error styling is `color('bright', 'red')` and `color('default')`, both markers |
| Prompt.ErrorMessageVisible | libs/terminate/prompt/__init__.py:15-16 | the error message shows as `Error: ` + message + bell + newline once styling is removed |
| Prompt.NormalizedIsStable | libs/terminate/prompt/__init__.py:104-106 | a plain answer `a` becomes `{'values': [a]}`, and normalising twice changes nothing |
| Prompt.Normalize | libs/terminate/prompt/__init__.py:103-106 | the array is rewritten in place, each answer replaced by its normalised form, order kept |
| Prompt.CollectFailsAtFirst | libs/terminate/prompt/__init__.py:117-131 | building the list fails with the first item's error, else holds every item's result in order |
| Prompt.LabelsFailAtFirst | libs/terminate/prompt/__init__.py:117-131 | the prompt entries fail at the first bad answer (bad style, missing or empty values) |
| Prompt.BuildPrompt | libs/terminate/prompt/__init__.py:117-132 | the loop building the prompt computes `PromptText` |
| Prompt.LabelShape | libs/terminate/prompt/__init__.py:121-131 | an entry is bright + first value + default, followed by its description in list mode |
| Prompt.JoinedLabelsStripped | libs/terminate/prompt/__init__.py:132 | joining the styled entries and removing styling gives the joined visible entries |
| Prompt.LabelsBuilt | libs/terminate/prompt/__init__.py:117-131 | with well-formed answers every entry is built, one per answer in order |
| Prompt.PromptVisible | libs/terminate/prompt/__init__.py:117-132 | the visible prompt is the text, then `[v1/v2/…]` in inline mode or the listed entries in list mode |
| Prompt.Find | libs/terminate/prompt/__init__.py:139-144 | a value is found iff some group matches, and it is the first value of the first matching group |
| Prompt.MatchIgnoringCase | libs/terminate/prompt/__init__.py:141 | with ignorecase, a response matches `a` iff it equals `str(a).lower()` |
| Prompt.FindIgnoringCase | libs/terminate/prompt/__init__.py:137-142 | with ignorecase, a line is found iff its lowercase equals some value's lowercase |
| Prompt.FindExactly | libs/terminate/prompt/__init__.py:143-144 | without ignorecase, only a string equal to the line is matched |
| Prompt.OthersNeverExact | libs/terminate/prompt/__init__.py:143-144 | without ignorecase, non-string answers can never be selected |
| Prompt.Query | libs/terminate/prompt/__init__.py:59-146 | `query` normalises, builds the prompt and converses, as `QueryRun` |
| Prompt.Converse | libs/terminate/prompt/__init__.py:133-146 | the read loop asks, matches and complains as `Dialogue` |
| Prompt.Rounds | libs/terminate/prompt/__init__.py:133-146 | the number of leading lines that are neither empty nor matched |
| Prompt.DialogueResult | libs/terminate/prompt/__init__.py:133-146 | the result is decided by the first line that is empty or matches: default or the match; InputExhausted if none |
| Prompt.DialogueFrom | libs/terminate/prompt/__init__.py:145-146 | unmatched lines are skipped without effect on the result |
| Prompt.DialogueStops | libs/terminate/prompt/__init__.py:135-144 | an empty line returns the default, a matched line its value, and end of input raises |
| Prompt.DialogueTrace | libs/terminate/prompt/__init__.py:133-146 | each unmatched line writes one "not understood" error and asks again |
| Prompt.InputObject | libs/terminate/prompt/__init__.py:24-57 | the read loop returns and writes as `Reading` |
| Prompt.Retries | libs/terminate/prompt/__init__.py:45-54 | the number of leading lines that `cast` rejects |
| Prompt.ReadingResult | libs/terminate/prompt/__init__.py:45-57 | the result is decided by the first line that is empty or cast: default or its value; the EOF branch's NameError if none |
| Prompt.ReadingFrom | libs/terminate/prompt/__init__.py:50-54 | rejected lines are skipped without effect on the result |
| Prompt.ReadingStops | libs/terminate/prompt/__init__.py:47-57 | an empty line gives the default, an accepted line its value, and end of input raises NameError |
| Prompt.ReadingTrace | libs/terminate/prompt/__init__.py:45-54 | each rejected line writes one error message in the cast's wording |
| Prompt.EmptyLineSkipsCast | libs/terminate/prompt/__init__.py:48-49 | on an empty line the result does not depend on `cast` at all |
| Libs.YesAnswers | libs/__init__.py:40-43 | `check_yes_no(v)` is True iff `v` is `y`, `Y` or empty |
| Libs.CleanPackagesNames | libs/__init__.py:45-46 | the list keeps its length and order, each name stripped and lowercased |
| Libs.CleanedNamesAreClean | libs/__init__.py:46 | every cleaned name is lowercase with no leading or trailing whitespace |
| Libs.CleanedNameIsClean | libs/__init__.py:46 | one cleaned name is lowercase with no whitespace at either end |
| Libs.CleanIsFixed | libs/__init__.py:46 | cleaning a clean name changes nothing |
| Libs.CleanPackagesNamesIdempotent | libs/__init__.py:45-46 | cleaning twice equals cleaning once |
| Libs.CreateDirs | libs/__init__.py:7-23 | `create_dirs` returns True and creates no directory, because its loop body is `pass` |

## Left out

- The `Win32` and `WinCTypes` console bindings (`libs/terminate/control.py:314-363`) are foreign calls. The `attrs` field of `Win` stands for `_get_attributes`/`_set_attributes`. `Win32.__init__` references an unqualified `STD_OUTPUT_HANDLE`, so `GetWrapper` reports that branch as a NameError.
- `_get_capabilities` (`libs/terminate/control.py:400-455`) needs curses and a tty, and refers to an undefined `format_strings`.
- Module wiring is not modelled: the `wrapper = get_wrapper()` singleton, the `__builtins__` mutation and `abstract.stdout` as a global. The controller and the sinks are explicit objects instead. The Basic, ANSI and Windows controller classes are one class tagged by its backend.
- The `OutputStream` delegation methods and properties (`libs/terminate/abstract.py:101-145`) only forward to the file object.
- `writelines` calls `lines.join(os.linesep)` the wrong way round; it is not specified.
- Flush ordering between stdout and stderr is a concurrency concern and is not modelled.
- `file_chooser`, the readline completer and `raw_input` are filesystem and terminal I/O. Input is a sequence of lines, and a prompt's output is a trace of events. When `readline` and `rl` both import, the completer reads `answer['values']` of every answer before any prompt entry is built (libs/terminate/prompt/__init__.py:110-111). An answer without 'values' then raises KeyError before an earlier answer's bad colour can raise ValueError, so the first-error order that `Prompt.LabelsFailAtFirst` states holds only when `rl` is absent.
- `os.linesep` is taken to be `"\n"`.
- `get_packages_list`, the settings files and `libs/terminate/__init__.py` are I/O or metadata.
- Strings.ParseDecimal: `int()` also accepts a sign and surrounding whitespace. Those cannot occur in a marker body, so only digit runs are modelled.
- Strings.Lower: only ASCII letters change case, as Python 2 `str.lower()` does in the C locale. Unicode strings are not modelled.
- Strings.Trim: its own contract does not say that the result comes from the input; `Strings.TrimIsPiece` states that.
- Prompt.InputObject: `cast` is a function returning a value or a ValueError. A cast that raises any other exception is not modelled. When input runs out, the EOFError branch returns the undefined name `false`; this is modelled as a NameError and no return value is specified.
- Prompt.Query: when input runs out, the EOFError propagates. This is modelled as the `InputExhausted` error.
- Prompt.Query: the prompt and the "not understood" message are written through the marker-scanning `stdout`, and the message holds the reply. A reply holding a marker that does not decode (`ESC[7m` raises IndexError, `ESC[1;;2m` ValueError) makes that write raise out of `query`. The model treats every write as one that cannot fail and reads the next line.
- Prompt.InputObject: the error message is written through the marker-scanning `stdout` and holds the reply. A reply holding a marker that does not decode makes that write raise out of the `except ValueError` handler, and so out of `input_object`. The model treats every write as one that cannot fail and reads the next line.
- Facts about the source that the model keeps as they are:
  - A second `reverse` on the Windows console does not undo the first; it writes the same word (`WinConsole.ReverseIsSticky`).
  - `Win.reset` is `pass`, and its docstring says it is not yet implemented in the Windows version.
  - `readcodes` indexes DISPLAY_CODES by number, so 4 reads as 'blink' and 5 as 'reverse', and 7 and 8 raise IndexError.
