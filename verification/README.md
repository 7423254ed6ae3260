# MiRCARTools in Dafny

A model of the core of MiRCARTools, a set of tools for mIRC art. mIRC art is text that carries mIRC's in-band control codes for colour, bold, italic, underline, reverse and reset. The model covers five parts:

- **MiRC2png**, the converter from mIRC art to PNG (`mirc_scan.dfy`, `mirc_scan_properties.dfy`, `converter.dfy`).
  - A document is scanned line by line by a three-state machine (`Char`, `Digit0`, `Digit1`).
  - The counting pass, `_getMaxCols`, sizes the canvas.
  - The rendering pass, `_render`, fills one glyph box per printable character.
  - `MircScan` states both passes as pure functions over a `Machine` value. The PIL drawing calls become `Paint` records.
  - `Converter.MiRC2png` is the converter object. Its fields are updated in place by methods that mirror `__init__`, `_getMaxCols`, `_render`, `_parseAsChar`, `_parseAsColourSpec`, `_syncChar` and `_syncColourSpecState`. Each method is proved against the functions.
  - `MircScanProperties` proves what the scanner guarantees:
    - the scanner invariant;
    - how colour specs resolve;
    - where each paint lands;
    - that every paint lies inside the image `__init__` allocates.
- **The Text tool** (`tool_text.dfy`).
  - A cursor that keystrokes write through in row-major order, wrapping at the edges.
  - The colour pair it writes with.
- **The Rect tool** (`tool_rect.dfy`). A stateless map from mouse buttons and the two canvas colours to strokes.
- **The IRC bot's bookkeeping** (`irc_bot.dfy`):
  - the operator list fed by NAMES replies and MODE changes;
  - the 45-second rate limit on `!pngbot` requests;
  - the rejoin-after-kick flag.
- **The canvas commands** (`canvas_interface.dfy`):
  - brush and canvas size increments and decrements, never below one cell;
  - the choice of brush colours.

Exceptions the Python code raises are modelled as error results. Examples are `int("")`, a palette `IndexError`, the unassigned `colourFg` of an underlined space, and a message field that is missing. A pure function returns `Err`/`None` for them, and a method returns the error or a `malformed` flag.

Helper modules: `Wrappers` (an `Option`) and `Strings` (`str.split`, `str.startswith`, ASCII `str.lower` and `str.isalpha`).

Three details of the code that the model keeps as written:

- An empty colour spec (a bare colour introducer) leaves both colours unchanged. It does not restore the defaults (MiRC2png.py:212-216).
- The reset marker clears the style flags and the pending spec. It does not restore the colours (MiRC2png.py:179-181).
- `_getMaxCols` counts every character handed to `_countChar` as a column. That includes the style markers and a line's trailing newline, so the canvas can be wider than the visible text (MiRC2png.py:92-94, MiRC2png.py:119-137).

## Model

| member | source | states |
|---|---|---|
| MircScan.Palette | MiRC2png.py:45-82 | both colour tables, bold and normal, have 16 entries |
| MircScan.ParseAsChar | MiRC2png.py:140-146 | in `Char` state every character is consumed. The colour introducer switches to `Digit0` and is not handed on. Every other character is handed on with the state unchanged |
| MircScan.ParseAsColourSpecEffects | MiRC2png.py:148-171 | a comma in `Digit0`, or a digit while fewer than two are buffered, is appended and consumed. A comma moves to `Digit1` and clears the digit count. Anything else finishes the spec: it is handed on unconsumed, with the buffer, state and count reset |
| MircScan.DecimalValue | MiRC2png.py:155-166 | the decimal value `int()` reads from one digit or from two, so a part of at most two digits has a value of at most 99 |
| MircScan.SyncCharEffects | MiRC2png.py:174-208 | the five style markers never fail, draw nothing and do not move the cursor. Bold, italic and underline toggle their flag. Reverse swaps fg and bg. Reset clears the flags and the spec buffer but not the colours. Any other character fails exactly when a palette index it needs is 16 or more, or when it is an underlined space. Otherwise it draws one box (space) or glyph at the cursor in colours from the palette the bold flag selects, and moves one glyph width right |
| MircScan.RenderStep | MiRC2png.py:107-116 | each rendering iteration consumes a character or leaves a colour-spec state (the termination measure decreases), and draws at most one paint |
| MircScan.CountStep | MiRC2png.py:126-135 | each counting iteration decreases the same measure and counts at most one column |
| MircScan.LineStart | MiRC2png.py:104-106 | at each line start the scanner, the spec buffer and the three flags are reset, while cursor and colours carry over |
| MircScanProperties.CountStepKeepsWellFormed | MiRC2png.py:148-171 | the scanner invariant (at most two digits per part, at most one comma, empty buffer in `Char`) holds at every step, and a finished spec has the shape `D`, `D,`, `D,E` or `,E` |
| MircScanProperties.SpecTextOfWellFormed | MiRC2png.py:148-171 | the buffer of a well-formed scanner inside a spec has the shape of a spec |
| MircScanProperties.AcceptKeepsWellFormed | MiRC2png.py:149-166 | accepting a comma or a digit keeps the scanner invariant |
| MircScanProperties.ScannedSpecHasAtMostOneComma | MiRC2png.py:212-220 | a scanned spec splits into at most two parts, so the reset-to-defaults branch is unreachable |
| MircScanProperties.ColourSpecResolution | MiRC2png.py:211-221 | an empty spec keeps both colours. `F` sets fg only. `F,B` sets both. `F,` keeps bg. `,B` and `,` fail in `int("")` |
| MircScanProperties.RenderStepFollowsCount | MiRC2png.py:107-135 | a rendering iteration moves the scanner exactly as the counting iteration does. It draws no more paints than columns counted, stays on the row, and draws at the cursor before advancing one glyph per paint |
| MircScanProperties.RunLineStep | MiRC2png.py:107-116 | one iteration of a line: the rest of the line continues from its result, the column count splits the same way, and the cursor moves one glyph per paint |
| MircScanProperties.RunLineFits | MiRC2png.py:107-135 | a line only appends paints, and draws no more of them than `_getMaxCols` counts columns for it |
| MircScanProperties.RunLineStaysOnRow | MiRC2png.py:186-207 | scanning a line never moves the cursor off its row |
| MircScanProperties.RunLineLayout | MiRC2png.py:186-207 | the i-th paint of a line lies i glyph widths right of where the line started, on the line's row |
| MircScanProperties.SpanIsProduct | MiRC2png.py:234 | `n` glyph advances of width `w` cover `n * w` pixels, the image-size product |
| MircScanProperties.CountLineStep | MiRC2png.py:126-135 | the count of a line is its first step's count plus the count of the rest |
| MircScanProperties.RunLineAdvances | MiRC2png.py:107-116 | a line scan continues from each iteration's result, or stops with its exception |
| MircScanProperties.RunLineEnds | MiRC2png.py:107-116 | a successful line scan stops exactly at the end of the line, with the scanner invariant intact |
| MircScanProperties.RunLinePrefix | MiRC2png.py:107-116 | scanning a line that extends another runs through the shorter one first: an exception there is the exception of the longer line, and otherwise the longer scan carries on from where the shorter one stopped |
| MircScanProperties.PendingTailAccepted | MiRC2png.py:148-166 | inside a colour spec, a rest of the line that completes the buffer to the shape of a spec is accepted to the end of the line: nothing is drawn, only the scanner changes, and the spec stays pending |
| MircScanProperties.RenderRowsAdvances | MiRC2png.py:103-117 | after each line the next starts at x = 0, one glyph height lower. An exception in a line ends the pass |
| MircScanProperties.MaxColsBound | MiRC2png.py:120-137 | every line's column count is at most the computed width |
| MircScanProperties.MaxColsAttained | MiRC2png.py:120-137 | the computed width is some line's count, or 0 for an empty document |
| MircScanProperties.CountWithoutIntroducer | MiRC2png.py:126-130 | with no colour introducer ahead, every remaining character counts as a column |
| MircScanProperties.LineColsWithoutIntroducer | MiRC2png.py:92-94 | a line without a colour introducer is as wide as it is long, markers and newline included |
| MircScanProperties.RenderRowsInside | MiRC2png.py:101-117 | every paint of the pass lies inside `maxCols` glyphs by one row per line, and the pass ends below the last line |
| MircScanProperties.RenderInsideImage | MiRC2png.py:226-237 | the paints of a successful conversion lie inside the image `__init__` allocates |
| MircScanProperties.RenderRowsIgnoresScanner | MiRC2png.py:104-106 | the outcome of the pass depends on the starting machine only through cursor and colours |
| MircScanProperties.PendingSpecIsDropped | MiRC2png.py:103-116 | for any line that ends outside a colour spec, appending an introducer and any unfinished spec changes neither whether the scan fails, nor the paints, nor the cursor or colours. Only the scanner differs, and the next line's reset discards it, so the pending spec is never applied |
| MircScanProperties.WideColourFails | MiRC2png.py:188-201 | anywhere on a line, a two-digit spec of 16 to 99 followed directly by a character that draws a glyph (anything but a space, a style marker, a comma or an introducer) makes the line raise the palette `IndexError`, whatever follows. With an in-range background the error names the spec's value. A space there does not raise, because its box reads only the background (`SyncCharEffects`) |
| Converter.ConversionOutcome | MiRC2png.py:236-237 | rendering from white on black at the origin is the conversion of the document, and its paints fit the image |
| Converter.MiRC2png.constructor | MiRC2png.py:226-239 | the image is `maxCols` glyphs wide and one glyph height (font height + 3) per line tall, and filled with normal colour 1. The paints are those of the rendering pass, or the exception it raises is recorded. On success every paint lies inside the image |
| Converter.MiRC2png.SizeImage | MiRC2png.py:228-234 | `inColsMax` is the widest line, `inRows` the line count, and the image size their product with the glyph size |
| Converter.MiRC2png.Draw | MiRC2png.py:236-237 | starting at fg 15 on bg 1, the rendering pass produces exactly the paints (or the exception) of `Render`, inside the image |
| Converter.MiRC2png.GetMaxCols | MiRC2png.py:120-137 | the result is the widest of the rows counted. The pen and paints are untouched. A `lines` longer than `inLines` raises `IndexError` |
| Converter.MiRC2png.CountRow | MiRC2png.py:123-136 | one row of `_getMaxCols` counts exactly `LineCols(line)` columns |
| Converter.MiRC2png.Render | MiRC2png.py:101-117 | the fields end as the pure rendering pass from the origin ends, and paints are appended in order. On an exception that exception is returned |
| Converter.MiRC2png.RenderRow | MiRC2png.py:104-116 | one row of `_render` ends as the pure line scan from the reset machine |
| Converter.MiRC2png.StartRow | MiRC2png.py:104-106 | resets scanner, buffer and flags, and keeps pen and colours |
| Converter.MiRC2png.ParseAsChar | MiRC2png.py:140-146 | the fields change as one pure step of the pass given as `fn`. The counting pass counts a column iff the character was handed on |
| Converter.MiRC2png.ParseAsColourSpec | MiRC2png.py:148-171 | the fields change as one pure step of the pass given as `fn`, and the result says whether the spec finished. An exception from `fn` leaves the state, column, digit count and buffer as they were |
| Converter.MiRC2png.SyncChar | MiRC2png.py:174-208 | the fields and paints change exactly as `SyncChar` of the current machine, or its exception is returned |
| Converter.MiRC2png.SyncColourSpecState | MiRC2png.py:211-221 | the colours become those of `SyncColourSpec`, or its `int()` exception is returned |
| ToolText.IndexInRange | MiRCARTToolText.py:46-52 | cells of a `w` by `h` canvas are numbered 0 to `w*h - 1` in row-major order |
| ToolText.IndexInjective | MiRCARTToolText.py:46-52 | distinct cells have distinct numbers |
| ToolText.AdvanceIsSuccessor | MiRCARTToolText.py:46-52 | an in-bounds cursor stays in bounds. A keystroke moves it to the next cell in row-major order, or from the last cell to (0,0) |
| ToolText.AdvanceNAdd | MiRCARTToolText.py:46-52 | `a + b` keystrokes are `a` keystrokes and then `b` more |
| ToolText.AdvanceNCounts | MiRCARTToolText.py:46-52 | short of the last cell, `n` keystrokes move the cursor `n` cells on |
| ToolText.FullCycle | MiRCARTToolText.py:46-52 | `w*h` keystrokes bring the cursor back to where it started |
| ToolText.TextTool.constructor | MiRCARTToolText.py:31 | colours and position start unset |
| ToolText.TextTool.OnKeyboardEvent | MiRCARTToolText.py:35-53 | a modifier other than none or Shift returns True and changes nothing. Otherwise unset colours and position are taken from the brush and the pointer (set ones are kept), exactly one cell `[x, y, fg, bg, 0, key]` is dispatched with flag False, the cursor advances, and the result is False. An in-bounds cursor stays in bounds |
| ToolText.TextTool.OnMouseEvent | MiRCARTToolText.py:57-68 | the position becomes the pointer. Left-down takes the brush colours, right-down takes them swapped, and otherwise the colours are kept (or taken from the brush if unset). Exactly one `_` cell is dispatched at the pointer with flag True |
| ToolRect.OnMouseEvent | MiRCARTToolRect.py:32-50 | left-down (which wins over right-down) gives two results, flag False then True. Right-down gives the same shape in the background colour. No button gives one result with flag True. Each result holds a single cell at offset (0,0): a space in one colour |
| ToolRect.IgnoresPointer | MiRCARTToolRect.py:32-50 | the result does not depend on `mapPoint` or `isDragging` |
| IrcBot.NamesOps | IrcMiRCARTBot.py:62-66 | the nicks collected from a NAMES reply are lower case and at most one per entry |
| IrcBot.NamesOpsMembers | IrcMiRCARTBot.py:62-66 | a nick is collected iff some entry is `@` plus that nick in some case |
| IrcBot.ScanModesStuck | IrcMiRCARTBot.py:86-97 | once the mode loop raises `IndexError` on a prefix, it raises on the whole string |
| IrcBot.LastOpWins | IrcMiRCARTBot.py:83-97 | the mode loop equals a closed form in which only the last `o` counts. Its direction is the last sign before it, and its argument comes after one argument per letter before it. The loop raises exactly when that argument is missing |
| IrcBot.RemoveFirst | IrcMiRCARTBot.py:107 | `list.remove` drops one copy of the nick, and nothing when it is absent |
| IrcBot.RemoveFirstKeepsLower | IrcMiRCARTBot.py:105-107 | removing keeps a lower-case list lower case |
| IrcBot.AuthoriseKeepsLower | IrcMiRCARTBot.py:98-107 | on a lower-case list the update never raises and keeps it lower case. A new candidate (compared in its own case) is appended lower-cased. Otherwise a present deauthorisation candidate loses one copy, and otherwise nothing changes |
| IrcBot.RequestUrlIsSecondField | IrcMiRCARTBot.py:126 | the URL of a `!pngbot ` request is the second space-separated field |
| IrcBot.TruncMono | IrcMiRCARTBot.py:117-125 | `int()` of a later clock reading is never smaller |
| IrcBot.AcceptedRequestsSpaced | IrcMiRCARTBot.py:117-125 | in any run of requests, each accepted one is stamped at least 45 whole seconds after the previous stamp, provided each request's stamp reading is not earlier than its gate reading |
| IrcBot.BackwardsClockBreaksSpacing | IrcMiRCARTBot.py:117-125 | if the clock runs backwards between a request's two readings, two consecutive accepted requests can be stamped less than 45 seconds apart (44 and 88 from a starting stamp of 0) |
| IrcBot.Bot.constructor | IrcMiRCARTBot.py:201-203 | channel and nick are set. The bookkeeping starts as `connect` resets it |
| IrcBot.Bot.Connect | IrcMiRCARTBot.py:37-46 | a successful connection empties the operator list, zeroes the request stamp and clears the rejoin flag. A failed one changes nothing |
| IrcBot.Bot.Dispatch353 | IrcMiRCARTBot.py:60-67 | a NAMES reply for the bot's channel (any case) appends its operators in order, without de-duplication. Other channels change nothing, and a missing field raises with the list unchanged |
| IrcBot.Bot.DispatchJoin | IrcMiRCARTBot.py:70-72 | JOIN clears the timeout and the rejoin flag |
| IrcBot.Bot.DispatchKick | IrcMiRCARTBot.py:75-79 | a kick of the bot's own nick from its channel sets the rejoin flag and a timeout 15 s after now. Any other kick changes nothing |
| IrcBot.Bot.DispatchMode | IrcMiRCARTBot.py:82-107 | the operator list becomes `ModeUpdate` of the old one, and the lower-case invariant is kept. A mode change on another channel changes nothing |
| IrcBot.Bot.DispatchPrivmsg | IrcMiRCARTBot.py:114-126 | a `!pngbot ` request on the channel is refused when fewer than 45 s have passed since the stamp, then refused when the sender is not an operator, and otherwise accepted with its URL. The gate reads the clock as `gateNow`. Only acceptance moves the stamp, to `int(stampNow)` from the second reading, which is at least 45 after the old stamp when the clock has not run backwards |
| IrcBot.Bot.DispatchTimer | IrcMiRCARTBot.py:147-151 | while a rejoin is pending it sends JOIN, re-arms the timeout 15 s after now and keeps the flag. Otherwise nothing happens |
| CanvasInterface.BrushStepBounds | MiRCARTCanvasInterface.py:70-84 | a brush command keeps a positive size positive, and changes only its own dimension by at most one |
| CanvasInterface.DecrUndoesIncr | MiRCARTCanvasInterface.py:70-103 | on a positive size, a decrement right after an increment restores the size, for the brush and for canvas requests |
| CanvasInterface.BrushStaysPositive | MiRCARTCanvasInterface.py:70-84 | no run of brush commands takes a positive brush below one cell |
| CanvasInterface.CanvasStaysPositive | MiRCARTCanvasInterface.py:87-103 | no run of canvas commands requests a size below one cell, and the canvas ends at the last size requested |
| CanvasInterface.CanvasCommands.CanvasColour | MiRCARTCanvasInterface.py:54-59 | a tool click sets colour slot 0 and a right click sets slot 1. The other slot is unchanged |
| CanvasInterface.CanvasCommands.CanvasDecrBrushHeight | MiRCARTCanvasInterface.py:70-73 | the brush height drops by one only when above one |
| CanvasInterface.CanvasCommands.CanvasDecrBrushWidth | MiRCARTCanvasInterface.py:81-84 | the brush width drops by one only when above one |
| CanvasInterface.CanvasCommands.CanvasDecrBrushHeightWidth | MiRCARTCanvasInterface.py:76-78 | the height decrement, then the width decrement |
| CanvasInterface.CanvasCommands.CanvasIncrBrushHeight | MiRCARTCanvasInterface.py:175-177 | the brush height grows by exactly one |
| CanvasInterface.CanvasCommands.CanvasIncrBrushWidth | MiRCARTCanvasInterface.py:185-187 | the brush width grows by exactly one |
| CanvasInterface.CanvasCommands.CanvasIncrBrushHeightWidth | MiRCARTCanvasInterface.py:180-182 | the height increment, then the width increment |
| CanvasInterface.CanvasCommands.CanvasDecrCanvasHeight | MiRCARTCanvasInterface.py:87-91 | requests `(w, h-1)` only when `h > 1`, and otherwise requests nothing |
| CanvasInterface.CanvasCommands.CanvasDecrCanvasWidth | MiRCARTCanvasInterface.py:99-103 | requests `(w-1, h)` only when `w > 1`, and otherwise requests nothing |
| CanvasInterface.CanvasCommands.CanvasDecrCanvasHeightWidth | MiRCARTCanvasInterface.py:94-96 | the height decrement, then the width decrement on the size it left |
| CanvasInterface.CanvasCommands.CanvasIncrCanvasHeight | MiRCARTCanvasInterface.py:190-193 | always requests `(w, h+1)` |
| CanvasInterface.CanvasCommands.CanvasIncrCanvasWidth | MiRCARTCanvasInterface.py:201-204 | always requests `(w+1, h)` |
| CanvasInterface.CanvasCommands.CanvasIncrCanvasHeightWidth | MiRCARTCanvasInterface.py:196-198 | the height increment, then the width increment on the size it left |

## Left out

- File I/O: reading the input file, closing it, and saving the PNG. The document is a sequence of lines given to the constructor.
- Fonts and PIL:
  - the glyph width and font height are parameters;
  - the image is its size, its fill and the sequence of paints;
  - pixels, the italic style (which the converter does not draw either) and RGBA values beyond the palette tables are not modelled.
- `int()` is modelled on digit strings and the empty string. Those are the only texts a colour spec can hold (`CountStepKeepsWellFormed`).
- `lower()` and `isalpha()` are ASCII-only. Python's Unicode case mapping is not modelled.
- Converter.MiRC2png.Render: on an exception it returns the error but does not state the fields the interrupted pass leaves behind. Nothing reads them, because the image is then never saved.
- MircScanProperties.RunLineStaysOnRow: states the row the cursor ends on, not its final column. Only the row is needed for the image bounds.
- MircScanProperties.SpanIsProduct: the image size is stated as repeated addition (`Span`). This lemma relates it to the product the source computes.
- The converter's and the bot's `main`, the command-line checks and all `print` logging.
- IrcBot.Bot.DispatchPrivmsg: models only the gate and the URL extraction. These are not modelled:
  - the download;
  - the call to the converter (it names a module the bot does not import);
  - the Imgur upload and its reply;
  - the temporary files.
- The bot's socket, `readline`, the `dispatch` loop with its timer check, `dispatch001`, `dispatchPing`, `dispatchNone` and `uploadToImgur`. These are network I/O. The JOIN line sent by `dispatchTimer` is reported as a boolean.
- IrcBot.Bot.constructor: starts with the values `connect` sets. Before the first connection the Python fields are `None`, and no dispatch function runs then.
- Clock readings are parameters (`now`, and `gateNow` and `stampNow` for the two readings in `dispatchPrivmsg`). `int(time.time())` is truncation toward zero.
- Canvas commands:
  - the `onCanvasUpdate` notifications to the frame are not modelled;
  - `resize` is not part of this model beyond recording the request and adopting the new size, which the `*HeightWidth` commands rely on.
- Dialogs, menus, the clipboard, file open/save/export and undo/redo are not modelled. Undo and redo only forward to a journal that is not part of this model.
- The Text and Rect tools:
  - the wx event objects are reduced to their modifier keys and buttons;
  - the dispatch function is represented by the list of calls made to it;
  - the canvas size and colours are parameters;
  - the device context and the unused brush size are not modelled.
