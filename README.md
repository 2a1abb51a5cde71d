# esp32-control in Dafny

A model of the control code of a "mix-and-inject" liquid-handling rig. The model has five parts:

- **The Dobot arm client, in two revisions.**
  - **Service revision** (`ServiceDobot`). A command stub's arguments are bound to its signature and encoded as `Name(a,b,key=v)`. The command is written to a connection object. The reply `code,{p1,...},Cmd(...);` loses its echo and is parsed into a code and numbers. The code is classified by `handle`, which logs and, for the alarmed code, sends `ClearError()`.
  - **Src revision** (`SrcDobot`). It has a socket that is present or absent. The reply is flat, `code,p1,...,msg`, and any token that is not a number gives the fallback `(-1, [], '')`.
  - **What they share.** The encoder (`DobotCommand`) and the 121 stub signatures (`DobotCatalog`) are the same in both revisions. So are the readings of `int`/`float`/`str` (`Numbers`) and of Python's string primitives (`Text`).
- **Two touch-screen state machines.**
  - service/main.py (`TouchMain`): INIT/HOME/STEP/EXEC/INPUT/MESSAGE, dispatched on the rising edge of a press.
  - service/app.py (`TouchApp`): INITING/INITED/INPUT, with an `is_in_pressed` latch; handlers run after the press ends.
  - Both share an inclusive rectangle hit test, an if/elif button chain and the pH keypad buffer (`Touch`).
- **The car's actuators and decisions.**
  - `Motion`: PWM clamping, the motion patterns, and `start`/`stop`/`move`.
  - `CoreControl`: the obstacle, tracking and manual decision tables.
  - `Ps2` and `Ps2Buttons`: the PS2 controller's LSB-first byte exchange and active-low button predicates.
- **The rig's devices.**
  - `Motor`: the stepper motor with its position counter and pulse interval.
  - `Indicator`: the beeper and the LED that toggles at most once per period.
- **The ESP32 station's command loop** (`Esp32Main`). It runs the mixing cycle (five pH reports, one every 100 filtered reads) and the injection cycle (2000 steps up and back down).

### How state is represented
- **Classes.** An object whose fields the source updates in place is a Dafny class. Its methods are proved against specification functions (`Snapshot()`, `SendCmdSpec`, `Replay`, ...), and the lemmas about those functions state what the source promises.
- **Hardware as inputs.** The pins, sockets and sensors are inputs and recorded outputs:
  - the levels the data line will show;
  - the replies the transport will return;
  - the touch readings;
  - the filtered pH at each read;
  - the clock reading.
- **Recorded outputs.** Outputs are kept as sequences: commands written, messages sent, pin levels written, clock edges.

### Where the code and its description differ
Some descriptions of this system state behaviour the code does not have. The model follows the code:
- **Error bands.** The band tests in `handle` use strict `<`, so -30000 is in no band and -40000 is a required-parameter *type* error at index 10000. Only -10000 and -20000 exactly are "command not found" and "parameter number error"; -10001 is reported as unknown.
- **Emergency stop.** It only logs; nothing disconnects.
- **Service `disconnect`.** It drops the connection object, so a second `disconnect` and any later command raise AttributeError, not a not-connected error. `disconnect` is idempotent only in the src revision.

## Model

| member | source | states |
|---|---|---|
| DobotCommand.Bind | service/dobot.py:207-208 | `bind` + `apply_defaults`: on success one value per declared parameter, each the positional, keyword or default value for it; otherwise TypeError |
| DobotCommand.BindTooMany | service/dobot.py:207 | more positional arguments than parameters raise TypeError |
| DobotCommand.BindBadKeyword | service/dobot.py:207 | a keyword naming no parameter, or one already given positionally, raises TypeError |
| DobotCommand.BindMissing | service/dobot.py:207 | a required parameter given neither way raises TypeError |
| DobotCommand.BindPositional | service/dobot.py:207-208 | a positional call covering the required parameters binds: the given values, then the defaults |
| DobotCommand.BindOk | service/dobot.py:207-208 | a call with no more positionals than parameters, whose keywords each name a parameter no positional filled, and which leaves no required parameter empty, binds; each keyword lands on the parameter it names |
| DobotCommand.KeptFromExact | service/dobot.py:209-213 | the arguments kept are exactly the indices whose value is not None, in increasing order |
| DobotCommand.RenderFromKept | service/dobot.py:209-213 | the arguments rendered from parameter i on are the non-None values, in declaration order, each by its own parameter's rule |
| DobotCommand.RenderArgsKept | service/dobot.py:209-213 | the whole argument list is the non-None values in declaration order, each rendered by its parameter's rule |
| DobotCommand.RenderKeyed | service/dobot.py:210 | a `_key` parameter renders as `key=` (underscore removed) followed by `str(v)` |
| DobotCommand.RenderArg | service/dobot.py:210 | any parameter not declared `_key` renders as `str(v)`; a keyed one is as long as its declared `_key` name and `str(v)` together (the `=` takes the underscore's place) |
| DobotCommand.Encode | service/dobot.py:214 | the command text starts with the stub's name and `(` and ends with `)` |
| DobotCommand.EncodeLeads | service/dobot.py:210-214 | a given, unkeyed first argument follows the name and `(` directly |
| DobotCommand.DecodeEncode | service/dobot.py:214 | decoding `Name(args)` gives back the name and the rendered arguments (name without '(' and arguments without ',') |
| DobotCommand.NumberArgReadsBack | service/dobot.py:210 | an unkeyed numeric argument, read back with `float`/`int`, is the number sent |
| DobotCatalog.AccJBinds | service/dobot.py:359 | `AccJ()` binds the default 100 |
| DobotCatalog.AccJText | service/dobot.py:359 | `AccJ()` is sent as `AccJ(100)` |
| DobotCatalog.EnableRobotBinds | service/dobot.py:272-280 | `EnableRobot(0.2,0,0,0,1)` binds its five values positionally |
| DobotCatalog.TwoTenthsText | service/dobot.py:210 | `str(0.2)` is `0.2` |
| DobotCatalog.EnableRobotArgs | service/dobot.py:272-280 | the five arguments render as `0.2`,`0`,`0`,`0`,`1` in declaration order |
| DobotCatalog.EnableRobotText | service/dobot.py:272-280 | `EnableRobot(0.2,0,0,0,1)` is sent as `EnableRobot(0.2,0,0,0,1)` |
| DobotErrors.BandOf | service/dobot.py:135-142 | a banded code's report has base minus index equal to the code, with index at least 1 |
| DobotErrors.Diagnose | service/dobot.py:131-170 | success logs nothing; any other code's last log line is the `match` line |
| DobotErrors.BandIntervals | service/dobot.py:135-142 | each band is a half-open interval below its base (strict `<`), in both directions, with index base minus code |
| DobotErrors.BoundedBandIndex | service/dobot.py:135-142 | in the three bounded bands the index lies in 1..10000 |
| DobotErrors.BaseBelongsAbove | service/dobot.py:135-142 | -40000, -50000 and -60000 fall in the band above at index 10000; -30000 is in no band |
| DobotErrors.UnknownIffUnlisted | service/dobot.py:144-168 | a nonzero code reaches the unknown-code case exactly when the `match` does not list it |
| DobotErrors.BandedAlsoUnknown | service/dobot.py:135-168 | a banded code logs its band line and then the unknown-code line |
| DobotErrors.ListedReportedOnce | service/dobot.py:144-168 | a listed code logs exactly one line, its own |
| DobotErrors.ReqTypeBaseUnknown | service/dobot.py:135-168 | -30000 is logged only as an unknown code |
| DobotErrors.EmergencyStopOnlyLogs | service/dobot.py:151-152 | emergency stop logs its line and clears nothing |
| Numbers.ParseNumber | service/dobot.py:179 | a token that reads as a number is a float exactly when it contains '.' |
| Numbers.ParseFloat | service/dobot.py:179 | `float(p)` gives a float in canonical form or fails |
| Numbers.ParseRender | service/dobot.py:179 | reading back `str(n)` gives n (`int(str(i)) == i`, `float(str(x)) == x`) |
| Numbers.RenderHasNoComma | service/dobot.py:179 | `str(n)` has no comma, so it survives the split on commas as one token |
| Numbers.RenderedToken | service/dobot.py:179 | `str(n)` is never empty and has no comma |
| Numbers.ParseNumberExamples | src/dobot.py:56-57 | `int("-7")` is -7; `int("")` raises |
| Numbers.ParseTokens | service/dobot.py:179 | the list comprehension: on success one number per token, each the token's reading; otherwise ValueError with a token that is not a number |
| Numbers.RenderAll | service/dobot.py:210 | one `str` text per number, in order |
| Numbers.ParseTokensRender | service/dobot.py:179 | reading the rendered tokens gives the numbers back |
| Text.NatToString | service/dobot.py:210 | `str(n)` is non-empty and all digits |
| Text.IntToString | service/dobot.py:210 | `str(i)` is non-empty |
| Text.NatToStringValue | service/dobot.py:210 | the digits of `str(n)` denote n |
| Text.ParseIntToString | service/dobot.py:177 | `int(str(i)) == i` |
| Text.ParseInt | service/dobot.py:177 | blank text and a lone sign raise ValueError; accepted text ends, once stripped, in a digit |
| Text.ParseIntEmpty | src/dobot.py:56 | `int('')` raises |
| Text.ParseIntDigits | service/dobot.py:177 | `int` of a digit run is the value the digits denote |
| Text.ParseIntMinusDigits | service/dobot.py:177 | `int` of `-` then a digit run is the negated value |
| Text.DropUnderscores | service/dobot.py:177 | `int` reads digits with `_` separators by dropping them, leaving only digits |
| Text.DropUnderscoresOfDigits | service/dobot.py:177 | text of digits only is unchanged |
| Text.SkipSpaces | service/dobot.py:193 | the first character `strip()` keeps is the first that is not whitespace |
| Text.TrimEnd | service/dobot.py:193 | the last character `strip()` keeps is the last that is not whitespace |
| Text.IndexOf | service/dobot.py:173 | the split point of `split(',', 1)` is the first comma |
| Text.Strip | service/dobot.py:193 | `strip()` leaves no whitespace at either end |
| Text.StripUnchanged | service/dobot.py:193 | text with no whitespace at either end is unchanged by `strip()` |
| Text.StripIsSlice | service/dobot.py:193 | `strip()` keeps a contiguous slice and removes only whitespace around it |
| Text.Split | src/dobot.py:49 | `split(',')` gives at least one piece |
| Text.SplitPartsFree | src/dobot.py:49 | no piece contains the separator |
| Text.JoinSplit | src/dobot.py:49 | joining the pieces of a split gives the text back |
| Text.SplitJoin | src/dobot.py:49 | splitting a join of separator-free pieces gives the pieces back |
| Text.SplitPrefix | src/dobot.py:49 | splitting `a + b`, where `a` has no separator, glues `a` onto the first piece of `b` |
| Text.SplitOnce | service/dobot.py:173 | `split(',', 1)`: one piece iff there is no comma; otherwise the text before the first comma and the rest |
| Text.RemoveSuffix | service/dobot.py:195 | `removesuffix` never lengthens the text |
| Text.RemoveSuffixOf | service/dobot.py:195 | `(body + suffix).removesuffix(suffix) == body` |
| Text.Inner | service/dobot.py:178 | `s[1:-1]` drops the first and last character |
| ServiceDobot.ParseParams | service/dobot.py:179 | an empty brace body gives no parameters |
| ServiceDobot.ParseResponse | service/dobot.py:172-179 | a reply with no comma fails the assertion; failures are only AssertionError or ValueError |
| ServiceDobot.SendCmdSpec | service/dobot.py:185-195 | `send_cmd` only appends to what was sent and logged and only consumes replies |
| ServiceDobot.HandleSpec | service/dobot.py:131-170 | `handle` returns the params it was given, unchanged, whenever it returns |
| ServiceDobot.CallSpec | service/dobot.py:197-222 | a stub call only appends to what was sent and logged and only consumes replies |
| ServiceDobot.Dobot.constructor | service/dobot.py:122-126 | a new client holds a connection object that is not connected |
| ServiceDobot.Dobot.Connect | service/dobot.py:235-244 | success marks the connection connected; failure, or no connection object, leaves none |
| ServiceDobot.Dobot.Disconnect | service/dobot.py:246-254 | no object: AttributeError; not connected: nothing; connected: the object is dropped |
| ServiceDobot.Dobot.SendCmd | service/dobot.py:185-195 | the result and new state are those of `SendCmdSpec` |
| ServiceDobot.Dobot.Handle | service/dobot.py:131-170 | the result and new state are those of `HandleSpec` |
| ServiceDobot.Dobot.Call | service/dobot.py:197-222 | the result and new state are those of `CallSpec` |
| ServiceDobot.Dobot.Grab | service/dobot.py:991-992 | sends the gripper command of `GripCommand` through `send_cmd` |
| ServiceDobot.Dobot.MovJPoint | service/dobot.py:994-1016 | a point of other than six values fails the assertion with nothing sent; otherwise it sends `MovJ` |
| ServiceDobot.Dobot.MovLPoint | service/dobot.py:1018-1044 | as `MovJPoint`, through `MovL` with speed and r |
| ServiceDobot.Dobot.RelPointUserPoint | service/dobot.py:1046-1062 | point or offset not six values: assertion failure with nothing sent; otherwise it sends `RelPointUser` |
| ServiceDobot.Dobot.GoTo | service/dobot.py:1064-1071 | `Home`/`Pack`/`Stay` send `MovJ` to their fixed joint point with no options |
| ServiceDobot.GripCommand | service/dobot.py:991-992 | opening always sends 70; closing sends the length, or 38 when it is falsy |
| ServiceDobot.StrValues | service/dobot.py:1004 | `map(str, list)`: one text per value, in order |
| ServiceDobot.Opt | service/dobot.py:210 | an option contributes nothing exactly when it is None |
| ServiceDobot.PlaceJoints | service/dobot.py:1064-1071 | each fixed point has six joints |
| ServiceDobot.MovJBinds | service/dobot.py:1004 | the helpers' `MovJ` call always binds, positionally |
| ServiceDobot.MovLBinds | service/dobot.py:1030 | the helpers' `MovL` call always binds, positionally |
| ServiceDobot.RelPointUserBinds | service/dobot.py:1053 | the helpers' `RelPointUser` call always binds |
| ServiceDobot.SplitRendered | service/dobot.py:179 | rendered numbers joined by commas split back apart |
| ServiceDobot.ParseParamsRender | service/dobot.py:178-179 | the brace body of a well-formed reply reads back as the numbers sent |
| ServiceDobot.ParseResponseFields | service/dobot.py:172-179 | `parse` of a well-formed reply body gives its code and numbers |
| ServiceDobot.ReplyBodyOf | service/dobot.py:193-195 | strip and echo removal turn a well-formed reply into its fields |
| ServiceDobot.ReplyBody | service/dobot.py:193-195 | the parsed text is the stripped reply, without the `,cmd;` echo when it ends with one |
| ServiceDobot.SendCmdParsed | service/dobot.py:185-195 | connected: one write, one reply consumed, and what `parse` reads goes to `handle` |
| ServiceDobot.SendCmdWellFormed | service/dobot.py:185-195 | connected with a well-formed reply: `handle` gets that reply's code and numbers |
| ServiceDobot.SendCmdReply | service/dobot.py:185-195 | connected, well-formed reply, code not alarmed: sends once, logs the code's reports, returns the reply's numbers |
| ServiceDobot.HandleAlarmed | service/dobot.py:147-150 | for the alarmed code `handle` logs, then sends `ClearError()` |
| ServiceDobot.HandleAlarmedReply | service/dobot.py:147-150 | with a well-formed reply to `ClearError()`, the alarmed `handle` returns its params |
| ServiceDobot.SendCmdAlarmed | service/dobot.py:147-150 | an alarmed reply sends the command and `ClearError()`, logs both reports and returns the first reply's numbers |
| ServiceDobot.NotConnectedSendsNothing | service/dobot.py:186-188 | without a connected connection a call fails, and nothing is sent, read or logged |
| ServiceDobot.ParseResponseExamples | service/dobot.py:173-179 | `"0"` fails the assertion; `"0,{}"` is code 0 with no parameters |
| ServiceDobot.KeyedStep | service/dobot.py:210 | a `_key` parameter contributes `key=value` when given and nothing when None |
| ServiceDobot.FiveKeyed | service/dobot.py:209-213 | five `_key` options contribute `key=value` for each one given, in order |
| ServiceDobot.MovJArgs | service/dobot.py:1004 | the helpers' `MovJ` arguments are the point, then each given option as `key=value` |
| ServiceDobot.MovJCommand | service/dobot.py:1004 | the command `MovJJoint`/`MovJPose` send opens with `MovJ(` and the `joint={...}` or `pose={...}` point |
| ServiceDobot.MovLCommand | service/dobot.py:1030 | the command `MovLJoint`/`MovLPose` send opens with `MovL(` and the point |
| ServiceDobot.RelPointUserCommand | service/dobot.py:1053 | the command `RelPointUserJoint`/`RelPointUserPose` send opens with `RelPointUser(` and the point |
| ServiceDobot.HomeValues | service/dobot.py:1064-1065 | `Home`'s joints render as six `0`s |
| ServiceDobot.HomePoint | service/dobot.py:1064-1065 | `Home`'s point argument is `joint={0,0,0,0,0,0}` |
| ServiceDobot.MovJPointOnly | service/dobot.py:1004 | with no options the command is `MovJ(<point>)` |
| ServiceDobot.EncodeOne | service/dobot.py:214 | a one-argument command is `Name(arg)` |
| SrcDobot.ParseReply | src/dobot.py:48-67 | unless it is the fallback, the code is the integer reading of the first token; a one-token reply has no params and an empty msg |
| SrcDobot.Dobot.constructor | src/dobot.py:39-44 | a new client has no socket |
| SrcDobot.Dobot.Connect | src/dobot.py:114-124 | a socket exists afterwards exactly when the connect succeeded |
| SrcDobot.Dobot.Disconnect | src/dobot.py:126-134 | afterwards there is no socket, whatever the state before |
| SrcDobot.Dobot.Call | src/dobot.py:73-101 | no socket: ConnectionError before binding, nothing sent; bind failure: TypeError, nothing sent; otherwise one write and the parsed reply |
| SrcDobot.ReplyLineStripped | src/dobot.py:49 | a well-formed reply line is unchanged by `strip` |
| SrcDobot.ParseReplyLine | src/dobot.py:49-63 | `parse` of `code,p1,...,pn,msg` gives code, params and msg back |
| SrcDobot.ParseReplyBadCode | src/dobot.py:55-67 | a first token that is not an integer gives the fallback |
| SrcDobot.ParseReplyEmpty | src/dobot.py:55-67 | the empty reply gives the fallback |
| SrcDobot.ParseReplyBadParam | src/dobot.py:57 | a parameter token that is not a number gives the fallback |
| SrcDobot.ParseReplyOneToken | src/dobot.py:58 | a one-token reply has no params and an empty msg |
| SrcDobot.ParseReplyTwoTokens | src/dobot.py:58 | a two-token reply has no params and the second token as msg |
| Touch.IsInBtnEdges | service/main.py:171-172 | the hit test includes all four edges and nothing past them (same test at service/app.py:85-86) |
| Touch.IsInBtn | service/main.py:171-172 | every point strictly inside the rectangle is hit; a rectangle of negative width or height is hit nowhere |
| Touch.FirstHit | service/main.py:183-204 | a key the elif chain returns belongs to a button that is hit |
| Touch.FirstHitNone | service/main.py:183-204 | the elif chain finds nothing exactly when no button is hit |
| Touch.FirstHitFound | service/main.py:183-204 | what the chain finds is a hit button that no earlier button shadows |
| Touch.InsideExcludes | service/main.py:104-119 | a point strictly inside one grid cell is in no other cell |
| Touch.FirstHitInside | service/main.py:210-244 | a press strictly inside a button's cell resolves to that button |
| Touch.NoButtonInside | service/main.py:217-244 | a press strictly inside a cell with no button hits nothing |
| Touch.HomeGridSpaced | service/main.py:88-91 | the home buttons sit on a well-spaced 2x2 grid |
| Touch.HomeQuadrants | service/main.py:183-204 | a press inside a home quadrant hits the button drawn there |
| Touch.HomeSharedEdge | service/main.py:186-203 | on the edges shared with the top-left button, the top-left button wins |
| Touch.Edit | service/main.py:220-244 | a digit or dot appends that one character; DEL drops the last one, or nothing on an empty buffer; OK changes nothing |
| Touch.KeypadButtonsTable | service/main.py:104-119 | each keypad button sits in its own cell, under the label drawn there (the same order and cells at service/app.py:39-52) |
| Touch.KeypadButtonsDistinct | service/main.py:104-119 | no two keypad buttons share a cell; the two middle top cells have none (lines 108 and 112 reassign those names) |
| Touch.KeypadMatchesDrawing | service/main.py:93-119 | on any well-spaced 4x4 grid, a press inside a keypad cell does what the label drawn there says; the two middle top cells do nothing |
| TouchMain.TouchUi.constructor | service/main.py:43-65 | starts in INIT/INIT with an empty buffer and no press |
| TouchMain.TouchUi.OnClickedInit | service/main.py:175-180 | the new state is `ClickInit` of the old |
| TouchMain.TouchUi.OnClickedHome | service/main.py:183-204 | the new state is `ClickHome` of the old |
| TouchMain.TouchUi.OnClickedInput | service/main.py:207-250 | the new state is `ClickInput` of the old |
| TouchMain.TouchUi.OnClickedMessage | service/main.py:253-261 | the new state is `ClickMessage` of the old |
| TouchMain.TouchUi.SendMessage | service/main.py:310-314 | the new state is `Messaged` of the old |
| TouchMain.TouchUi.PollOnce | service/main.py:342-358 | one loop pass is `Poll` of the old state and press flag |
| TouchMain.TouchUi.Run | service/main.py:342-360 | the loop over the readings is `Replay` of the old state and press flag |
| TouchMain.ClickInit | service/main.py:175-180 | any click moves to HOME and changes nothing else |
| TouchMain.ClickHome | service/main.py:183-204 | the home screen never edits the buffer; a press on no button changes nothing; only the bottom-right quadrant raises the exit flag |
| TouchMain.ClickInput | service/main.py:207-250 | a keypad click types at most one character, leaves only for HOME with the buffer cleared, and never touches the exit flag or the remembered screen |
| TouchMain.ClickMessage | service/main.py:253-261 | returns to the remembered screen, keeping the buffer and the exit flag |
| TouchMain.Poll | service/main.py:345-358 | the press flag becomes the reading's; only a new press changes the state |
| TouchMain.Replay | service/main.py:342-360 | with the exit flag set nothing happens; a run the flag did not stop ends with the press flag of the last reading |
| TouchMain.InputGridSpaced | service/main.py:104-119 | the keypad grid is well spaced, its columns and rows at multiples of the cell size `GRID44_WIDTH`/`GRID44_HEIGHT`, and it fits the screen |
| TouchMain.InitGoesHome | service/main.py:175-180 | in INIT any press moves to HOME |
| TouchMain.HomeClicks | service/main.py:183-204 | HOME: top-left to INPUT, top-right to STEP, bottom-left to MESSAGE remembering HOME, bottom-right sets the exit flag |
| TouchMain.KeypadClicks | service/main.py:207-250 | INPUT: a labelled cell appends its character with no length bound; DEL drops one; the cross clears and goes HOME; others change nothing |
| TouchMain.MessageReturns | service/main.py:253-261 | a click on the message screen returns to the state `send_message` was called from |
| TouchMain.StepExecInert | service/main.py:345-355 | STEP and EXEC have no handler; clicks change nothing |
| TouchMain.ExitFlag | service/main.py:203-204 | the exit flag stays set once set, and is only set from HOME |
| TouchMain.HeldPressIdle | service/main.py:345-358 | a held press dispatches nothing however long it lasts |
| TouchMain.PressDispatchesOnce | service/main.py:345-358 | a press dispatches exactly once, at its first reading, until released |
| TouchApp.TouchApp.constructor | service/app.py:15-21 | starts in INITING with an empty buffer, latch clear, no press |
| TouchApp.TouchApp.OnClicked | service/app.py:89-111 | the new state is `ClickInited` of the old |
| TouchApp.TouchApp.OnInputClicked | service/app.py:114-162 | the new state is `ClickInput` of the old |
| TouchApp.TouchApp.PollOnce | service/app.py:216-242 | one loop pass is `Poll` of the old state and press flag |
| TouchApp.TouchApp.Run | service/app.py:216-247 | the loop over the readings is `Replay` of the old state and press flag |
| TouchApp.ClickInited | service/app.py:89-111 | nothing without the latch, otherwise the latch is cleared; the buffer is kept; it leaves only for INPUT; only the bottom-right quadrant raises the exit flag |
| TouchApp.ClickInput | service/app.py:114-162 | nothing without the latch, otherwise the latch is cleared; at most one character typed; it leaves only for INITED with the buffer cleared; the exit flag is untouched |
| TouchApp.Release | service/app.py:233-242 | leaving INITING keeps the latch; only INITED can raise the exit flag |
| TouchApp.Poll | service/app.py:219-242 | the press flag becomes the reading's; a press only sets the latch; an unpressed reading without the latch changes nothing |
| TouchApp.Replay | service/app.py:216-247 | with the exit flag set nothing happens; a run the flag did not stop ends with the press flag of the last reading |
| TouchApp.InputGridSpaced | service/app.py:39-52 | the keypad grid is well spaced, its columns and rows at the quarters `W * k // 4` of the screen, and it fits the screen |
| TouchApp.HandlersNeedLatch | service/app.py:89-94 | both handlers do nothing unless the latch is set, and clear it whenever they act |
| TouchApp.HomeClicks | service/app.py:96-111 | INITED: RUN opens the keypad, EXIT sets the exit flag, the other quadrants only clear the latch |
| TouchApp.KeypadClicks | service/app.py:121-156 | INPUT: a labelled cell appends, DEL drops one, back clears and returns to INITED, OK only clears the latch |
| TouchApp.ClickOnRelease | service/app.py:229-242 | a press then a release runs the handler at the release's coordinates |
| TouchApp.InitingLeavesLatch | service/app.py:234-238 | leaving INITING keeps the latch, so the next unpressed reading runs `on_clicked` |
| TouchApp.HeldPressLatches | service/app.py:229-230 | a held press only sets the latch |
| Motion.Clamp | embeded/motion.py:29 | the width is in [1000, 2000], unchanged inside it, saturated outside (same at src/motion.py:24) |
| Motion.ClampMirror | embeded/motion.py:29 | opposite offsets from 1500 clamp to widths symmetric about 1500 |
| Motion.Writes | embeded/motion.py:72-73 | a loop over pin indices writes each index the controller has, in order, with its target |
| Motion.MotionController.constructor | embeded/motion.py:14-17 | one pin per id, each at the frequency with duty 0 |
| Motion.MotionController.SetFreq | embeded/motion.py:19-23 | the frequency is stored and applied to every pin, widths kept (same at src/motion.py:16-20) |
| Motion.MotionController.SetDuty | embeded/motion.py:26-36 | an index in range gets the clamped width; any other index writes nothing (same at src/motion.py:22-30) |
| Motion.PatternsWellFormed | embeded/motion.py:46-60 | every pattern has four signs in {-1, 0, 1} (same at src/motion.py:38-50) |
| Motion.Negate | embeded/motion.py:49-60 | the sign-flip of a pattern |
| Motion.OppositePatterns | embeded/motion.py:49-60 | backward, right and the right-hand diagonals and rotation are the sign-flips of their partners; the deflections are not |
| Motion.Clamped | embeded/motion.py:29 | every applied width lies in [1000, 2000] |
| Motion.Requested | embeded/motion.py:102-107 | with signs in -1..1, each wheel's requested width lies within the speed of 1500 |
| Motion.MoveWidths | embeded/motion.py:102-107 | the widths `move` applies lie in [1000, 2000], and all are 1500 at speed 0 |
| Motion.MoveOpposite | embeded/motion.py:102-107 | the opposite pattern at the same speed drives each wheel to the mirror width |
| Motion.MoveWidthsExact | embeded/motion.py:102-107 | a zero sign or zero speed gives 1500; within ±500 each wheel gets exactly 1500 + sign·speed |
| Motion.MotionWrapper.constructor | embeded/motion.py:66-68 | a fresh controller on the pins at the frequency |
| Motion.MotionWrapper.DriveFour | embeded/motion.py:72-73 | `set_duty(i, v[i])` for i < 4: clamped widths, on the pins that exist |
| Motion.MotionWrapper.Start | embeded/motion.py:70-84 | all four wheels to 1000, then all to 1500 (same at src/motion.py:58-71) |
| Motion.MotionWrapper.Stop | embeded/motion.py:86-94 | all four wheels to 1500 (same at src/motion.py:73-80) |
| Motion.MotionWrapper.Move | embeded/motion.py:102-112 | not four signs: AssertionError before any write; otherwise wheel i gets clamp(1500 + sign·speed) (same at src/motion.py:82-86) |
| Ps2.ByteBits | src/ps2.py:21 | a byte's eight bits, low bit first |
| Ps2.BitsToByteBit | src/ps2.py:25-26 | bit i of the assembled byte is the i-th sampled level |
| Ps2.BitsToByteStep | src/ps2.py:25-26 | one more high level sets exactly that bit; a low one leaves the byte |
| Ps2.ByteBitsRoundTrip | src/ps2.py:18-29 | assembling a byte's bits gives the byte back |
| Ps2.BitsRoundTrip | src/ps2.py:18-29 | splitting an assembled byte gives the levels back |
| Ps2.ByteClocks | src/ps2.py:20-22 | at clock edge i the command line carries bit i of the byte |
| Ps2.FramesLayout | src/ps2.py:44-50 | command byte k occupies clock edges 8k..8k+7, low bit first, select low |
| Ps2.Ps2Protocol.constructor | src/ps2.py:7-15 | command, clock and select start high |
| Ps2.Ps2Protocol.ShiftIo | src/ps2.py:17-34 | the result's bits are the sampled levels; the edges carry the byte LSB first; command and clock end high |
| Ps2.Ps2Protocol.Start | src/ps2.py:36-38 | select goes low |
| Ps2.Ps2Protocol.End | src/ps2.py:40-42 | select goes high |
| Ps2.Ps2Protocol.SendCmd | src/ps2.py:44-55 | one response byte per command byte, in order; all edges under select low; select high after |
| Ps2Buttons.ButtonBits | src/ps2.py:101-117 | each button is one bit, and together they cover the 16-bit word |
| Ps2Buttons.Pressed | src/ps2.py:75-76 | the empty mask is always pressed; the whole-word mask only by the all-low word |
| Ps2Buttons.Changed | src/ps2.py:81-85 | a change in the masked bits is a change of the word; without a mask it is exactly a change of the word |
| Ps2Buttons.ButtonStateQueries | src/ps2.py:75-88 | on a button state, the empty mask is pressed and a pressed mask has no bit high in the current word; `has_changed` and `was_pressed` never hold unless the last `update` changed the word |
| Ps2Buttons.ReleasedMirrorsPressed | src/ps2.py:78-91 | as written, `is_released` holds exactly when `is_pressed` does, and `was_released` exactly when `was_pressed` does |
| Ps2Buttons.Ps2ButtonState.constructor | src/ps2.py:67-69 | both words start at 0 |
| Ps2Buttons.Ps2ButtonState.Update | src/ps2.py:71-73 | the current word becomes the previous one; the new word is current |
| Ps2Buttons.WasPressedIsFallingEdge | src/ps2.py:87-88 | for one button, `was_pressed` iff its bit went from high to low |
| Ps2Buttons.ZeroMaskIsWholeWord | src/ps2.py:81-85 | mask 0 and no mask both compare the whole word |
| Ps2Buttons.WasReleasedFiresOnPress | src/ps2.py:90-91 | as written, `was_released` iff the bit went from high to low, the same edge as `was_pressed` |
| Ps2Buttons.WasReleasedIntendedIsRisingEdge | src/ps2.py:78-91 | with `is_released` as the negation of `is_pressed`, `was_released` iff the bit went from low to high, never with `was_pressed` |
| Motor.Level | src/motor.py:35-38 | the level read back is 0 or 1, and 0 exactly for 0 |
| Motor.StepperMotor.constructor | src/motor.py:16-26 | pulse and direction low, position 0; an enable pin only for a truthy id, starting high |
| Motor.StepperMotor.Enable | src/motor.py:28-31 | enable drives the pin 0, disable 1; without a pin nothing |
| Motor.StepperMotor.Step | src/motor.py:33-48 | the direction is set if given; max(n, 0) pulses; position moves by n up and by -n down; the pulse pin ends low |
| Motor.StepperMotor.SetRpm | src/motor.py:61-69 | rpm ≤ 0 fails the assertion; zero steps per revolution divides by zero; otherwise at least 20, and either 20 or a minute divided by steps per minute |
| Motor.StepperMotor.GetPosition | src/motor.py:71-73 | returns the counter |
| Motor.StepperMotor.ResetPosition | src/motor.py:75-77 | the counter becomes 0 |
| Motor.SetRpmExact | src/motor.py:67 | the interval is exactly 60e6/(steps·rpm) while that is at least 20 (up to 3,000,000 steps per minute), and 20 above |
| Indicator.Beeps | src/indicator.py:39-45 | `count` beeps write 2·count levels: 1, 0, 1, 0, ... |
| Indicator.BeepIndicator.constructor | src/indicator.py:24-27 | the pin id is kept; nothing written |
| Indicator.BeepIndicator.On | src/indicator.py:29-32 | writes 1 |
| Indicator.BeepIndicator.Off | src/indicator.py:34-37 | writes 0 |
| Indicator.BeepIndicator.Loop | src/indicator.py:39-45 | writes `count` on/off pairs (none for count ≤ 0), and the pin ends at 0 |
| Indicator.LedIndicator.constructor | src/indicator.py:51-57 | period in ns is period_ms·1,000,000; off; last toggle 0; the pin shows the state |
| Indicator.LedIndicator.On | src/indicator.py:59-62 | writes 1 |
| Indicator.LedIndicator.Off | src/indicator.py:64-67 | writes 0 |
| Indicator.LedIndicator.Toggle | src/indicator.py:69-79 | the new state is `Toggled` of the old: flips, writes the new level and records the time iff a full period has passed |
| Indicator.Toggled | src/indicator.py:69-79 | the LED flips exactly when a full period has passed, and then records the time and writes the new level; otherwise nothing changes |
| Indicator.Blink | src/indicator.py:69-79 | successive toggles keep the earlier writes and add at most one each |
| Indicator.ToggledShowsState | src/indicator.py:72-78 | a toggle keeps the pin showing the state |
| Indicator.AtMostOncePerPeriod | src/indicator.py:72 | after a flip, no toggle within the next period changes anything |
| Indicator.BlinkSpaced | src/indicator.py:69-79 | toggles a full period apart each flip: the parity of their number gives the state, one write each, last time recorded |
| Indicator.BlinkShowsState | src/indicator.py:69-79 | along any toggles the pin keeps showing the state |
| CoreControl.ObstacleAvoidance | embeded/core.py:25-37 | distance 0: nothing; below 40: stop; otherwise AttributeError (as written) |
| CoreControl.ObstacleAvoidanceFailsWhenClear | embeded/core.py:35-37 | a clear 50 cm reading raises instead of driving |
| CoreControl.ObstacleAvoidanceIntended | embeded/core.py:25-37 | drives exactly when the reading is neither 0 nor below 40, and then only forward at the given speed; a stop sleeps `stop_time` |
| CoreControl.ObstacleAvoidanceIntendedAgrees | embeded/core.py:25-37 | the intended table agrees where the written one succeeds; forward at the speed iff clear; never moves nearer than 40 cm |
| CoreControl.TrackingTable | embeded/core.py:39-49 | (0,1) right deflection, (1,0) left rotation, (0,0) forward, (1,1) stop, anything else nothing; each in both directions |
| CoreControl.TrackingPath | embeded/core.py:39-49 | a move uses one of the motion patterns at the given speed; a stop does not sleep; a reading that is not two 0/1 levels does nothing |
| CoreControl.ManualTable | embeded/core.py:51-66 | FORWARD, BACKWARD, LEFT (rotation), RIGHT (rotation), STOP; any other command nothing; each in both directions |
| CoreControl.ManualControl | embeded/core.py:51-66 | a move uses one of the motion patterns at the given speed; a stop does not sleep; an empty command does nothing |
| CoreControl.MovesAreWellFormed | embeded/core.py:43-64 | every move the decisions make names a motion pattern with four signs |
| Esp32Main.Upper | embeded/main.py:63 | `upper()` keeps the length |
| Esp32Main.UpperIdempotent | embeded/main.py:63 | upper-casing twice is upper-casing once |
| Esp32Main.Classify | embeded/main.py:65-78 | exactly the words START, DO_MIX, DO_INJECT and DONE do something, START being the greeting; empty data is skipped |
| Esp32Main.Dispatch | embeded/main.py:62-66 | no data is skipped, and wherever the written pass does not raise, the intended one agrees with it |
| Esp32Main.DispatchAsWritten | embeded/main.py:62-66 | as written, no data (`None`) raises AttributeError, and nothing else does |
| Esp32Main.EmptyDataGuardUnreachable | embeded/main.py:65-66 | non-empty data stays non-empty upper-cased, and `None` raises first, so the empty-data test never fires |
| Esp32Main.DispatchIntended | embeded/main.py:63-78 | the intended dispatch agrees where the written one succeeds, skips no data, is case-insensitive, and does not strip "start\n" |
| Esp32Main.UartSendAsWritten | embeded/uart.py:14-16 | `buf + b'\n'` raises TypeError exactly when `buf` is a `str`; `bytes` go out followed by a newline |
| Esp32Main.UartSendIntendedAgrees | embeded/uart.py:14-16 | the intended send agrees with the written one where it does not raise, treats a `str` as its characters, and writes one line per message |
| Esp32Main.FirstSendRaisesAsWritten | embeded/main.py:10-78 | as written, every command that sends anything raises TypeError at its first `send`, which gets the `str` READY, DONE, MIX_START or INJECT_START |
| Esp32Main.PhReports | embeded/main.py:21-25 | one report per cycle of 100 reads |
| Esp32Main.PhReportsAt | embeded/main.py:17-25 | report k (from 0) carries the filtered value of read 100(k+1) of the cycle |
| Esp32Main.CountAllReports | embeded/main.py:21-25 | the reports of `count` cycles are `count` pH reports |
| Esp32Main.MixTranscript | embeded/main.py:9-33 | a mixing cycle sends MIX_START first, MIX_DONE last, exactly five reports between, report k carrying read 100k of the cycle |
| Esp32Main.Commands | embeded/main.py:61-78 | one command per received datum |
| Esp32Main.TranscriptCons | embeded/main.py:61-84 | the loop's output is the first command's messages, then the rest's unless it raised |
| Esp32Main.GreetingAnswered | embeded/main.py:68-69 | START in any letter case is answered with READY and nothing else |
| Esp32Main.Station.constructor | embeded/main.py:50-59 | the syringe stepper has 200 steps per revolution at position 0; nothing sent |
| Esp32Main.Station.Send | embeded/uart.py:14-16 | the intended send: appends one message to what was sent |
| Esp32Main.Station.DoMixing | embeded/main.py:9-33 | sends the mixing messages, makes exactly 500 reads, motor on before the loop and off after |
| Esp32Main.Station.ReportUntilDone | embeded/main.py:17-31 | the loop makes exactly 500 reads and sends the five reports, then MIX_DONE |
| Esp32Main.Station.DoInjection | embeded/main.py:36-47 | INJECT_START, 2000 steps up and 2000 down (position unchanged), INJECT_DONE; zero steps per revolution raises after the announcement, before any pulse |
| Esp32Main.Station.Execute | embeded/main.py:68-78 | one command: READY, DONE, a mixing or an injection cycle, or nothing; raises only for an injection that divides by zero |
| Esp32Main.Station.Handle | embeded/main.py:62-81 | one pass of the loop: the effect of the dispatched command |
| Esp32Main.Station.Advance | embeded/main.py:61-81 | one pass over the pending commands sends the first one's messages and leaves the rest's transcript to send |
| Esp32Main.Station.Run | embeded/main.py:61-84 | everything sent is the transcript of the received commands; the syringe ends where it started; only a division by zero ends the loop early |

## Left out

- Transport: the socket and serial classes (service/dobot.py:23-92, service/conn.py) and `recv` sizes are not modelled. The transport is a connection flag plus a sequence of replies; running out of replies is a `Timeout` result.
- `inspect.signature` and the return-annotation dispatch are not modelled. Each stub is a row of `DobotCatalog`: its name, and each parameter with its default. The `DobotResponse2` branch is not modelled, since no stub in either revision uses it.
- Logging text, debug output and `print` are left out. `handle`'s log is modelled as the kind of each report line, not its text.
- Floating point: a float token is kept as the exact decimal it denotes. binary64 rounding, exponent notation, `inf`/`nan`, and `str` of floats that Python prints in exponent form are not modelled.
- Text.ParseInt: surrounding whitespace, a sign, ASCII digits and single underscores between digits are modelled as `int()` reads them. Python's `int()` also accepts non-ASCII Unicode digits (`int('٣')`); `Text.IsDigit` is ASCII-only, so the model refuses them.
- Numbers.ParseFloat: refuses underscores between digits and non-ASCII Unicode digits, both of which Python's `float()` accepts (`float('1_0.5')`).
- Timing: `time.sleep`, `sleep_us`, delays and the clock are left out. The LED's clock reading is a parameter of `Toggle`.
- Rendering: the screen, fonts and the redraw gate (service/main.py:246-250) are not modelled. The touch-screen size is a parameter.
- Python's `str.upper()` is modelled on ASCII letters only.
- The Kalman filter (embeded/filter.py), the sensors (embeded/sensor.py) and the pH text format `pH:{ph:.2f}` are not part of this model. The filtered pH at each read is an input function, and a report carries that value.
- The duty-cycle formula `int(pwm*65535/(1e6/freq))` is not modelled. A pin's state is the clamped width applied to it.
- `MotionController.release`, src/motion.py's `MotionController.stop` (deinitialisation), `move`'s callback and the deprecated single-pattern helpers are not modelled.
- `StepperMotor.move_angle` and `move_to_angle` are not modelled (float angle arithmetic).
- The PS2 controller wrapper and its read cycle are not modelled. The command in `CoreControl.ManualControl` is a parameter, because embeded/ps2.py (`read_command`, `speed_pwm`) is not part of this model.
- The button word is modelled as 16 bits. Python's unbounded ints are not modelled, as no wider state arises from the controller.
- The mixing motor is a recorded on/off call. `MixingMotor` comes from the `motor` module that embeded/main.py imports; that module is not modelled.
- Esp32Main.Station.Send: follows the intended send (`UartSendIntended`). As written, embeded/uart.py:16 computes `buf + b'\n'` on the `str` every caller passes, which raises TypeError; `UartSendAsWritten` and `FirstSendRaisesAsWritten` state that. So the station's cycles, `GreetingAnswered` and `MixTranscript` describe the program with that fix.
- The ESP32 loop's `KeyboardInterrupt` exit is not modelled. `Run` processes a finite sequence of received data.
- Esp32Main.Station.Run: it follows the intended dispatch (no data is skipped). With the dispatch as written, the first idle read would end the loop with AttributeError; `DispatchAsWritten` states that.
- CoreControl.ObstacleAvoidance: models only the decision. `forward(stop_time)` after the missing `set_speed` is not reached as written.

## Findings

| source | as written | input that shows it | evidently intended | confidence | as-written member | corrected member |
|---|---|---|---|---|---|---|
| embeded/core.py:36 | the clear-road branch calls `self.motion.set_speed`, which `MotionWrapper` does not define, so it raises AttributeError | a distance of 50 cm | drive forward at `speed_pwm` | high, not executed | CoreControl.ObstacleAvoidanceFailsWhenClear | CoreControl.ObstacleAvoidanceIntendedAgrees |
| embeded/main.py:63 | `uart.recv().upper()` runs before the empty-data test, and `recv` returns `None` when nothing was read (embeded/uart.py:24-25), so an idle UART raises AttributeError and ends the loop | a loop pass with nothing received | skip the pass, as the empty-data test intends | high, not executed | Esp32Main.EmptyDataGuardUnreachable | Esp32Main.DispatchIntended |
| embeded/uart.py:16 | `send` computes `buf + b'\n'`, but every caller in embeded/main.py passes a `str`, and `str + bytes` raises TypeError, which the loop does not catch | the data START: `uart.send('READY')` raises | write the text followed by a newline | high, not executed | Esp32Main.FirstSendRaisesAsWritten | Esp32Main.UartSendIntendedAgrees |
| src/ps2.py:78-79 | `is_released` has the same body as `is_pressed`, so `was_released` fires when a button goes down | previous word 0xFFFF, current 0xFFF7, mask START (0x0008) | `is_released` is true while the button's bit is high, so `was_released` fires on the rising edge | high, not executed | Ps2Buttons.WasReleasedFiresOnPress | Ps2Buttons.WasReleasedIntendedIsRisingEdge |
