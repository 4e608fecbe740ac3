# Virtual Touchpad, modelled in Dafny

Virtual Touchpad turns a phone or tablet into a touchpad and keyboard for a
desktop computer. A browser client recognises taps, drags and key presses.
It sends them as JSON commands over a websocket to a Python server. The
server dispatches each command to a handler, and the handler injects mouse
and keyboard events into the operating system through a platform driver.
Both sides keep configuration in small key-value stores.

This project models the logic under that plumbing and proves what it
promises. Each Dafny module follows one source file:

- **Mouse handlers and drivers.** The scroll accumulators of the mouse handler (`ServerMouse`), of the X driver (`XorgEvent`, `XInput`) and of the Linux driver (`LinuxEvent`).
- **Keyboard.** The Windows dead-key state machine (`Win32Event`), key-name classification (`PynputKeyboard`) and the keyboard handler's backend state (`ServerKeyboard`).
- **Commands.** The command dispatcher (`Dispatch`) and the two websocket controllers with their error classification (`Controller`, `ServerController`).
- **Platform drivers.** The resolvers that pick a driver and check it against the abstract stubs: `Resolver`, `Platform`, `PrivatePlatform`, `OsEvent` and `DispatcherNames`.
- **Configuration.** The dotted-path JSON store with its notifier and the values built on it: `Store`, `Configuration`, `Value`, `Notifier` and `Status`.
- **HTTP helpers.** Static-file serving with conditional GET (`RoutesUtil`), Accept-Language negotiation (`Translations`), and route-template rewriting with the aiohttp wrappers (`RoutesAiohttp`).
- **Browser client.** The on-screen keyboard (`Keyboard`), the touchpad gestures (`View`), the slider (`Trackbar`), the typed settings (`BrowserConfiguration`), and touch cloning and XML escaping (`Util`).
- **Layout capture.** The layout-capture script (`MakeLayout`).

Modules that hold only helpers for the others:

- `Wrappers` holds Option and Result.
- `Strings` holds the Python string operations used.
- `Json` holds JSON values, with Python's `==` on them.
- `Seqs` holds lemmas about sequences.
- `Numbers` holds Python's `int()` of a real, which truncates toward zero.

Injected operating-system events are appended to an event log. Everything
the code calls but cannot see is a parameter of the model, and `Left out`
lists each one.

## Model

| member | source | states |
|---|---|---|
| `XInput.Display.Inject` | lib/virtualtouchpad/event/xorg.py:85-96 | every injected X event is appended after all earlier ones |
| `XInput.Clicks` | lib/virtualtouchpad/event/xorg.py:107-113 | n wheel clicks are n press/release pairs of the button, 2·n events |
| `XInput.Wheel` | lib/virtualtouchpad/event/xorg.py:105-113 | |clicks| press/release pairs, of the forward button for a positive count and of the back button otherwise |
| `XInput.EmitClicks` | lib/virtualtouchpad/event/xorg.py:107-113 | the `for i in range(abs(v))` loop injects exactly `Clicks(button, n)`, a press then a release of the button n times |
| `XInput.EmitWheel` | lib/virtualtouchpad/event/xorg.py:105-113 | a signed click count is emitted on the forward button when positive and on the back button when negative |
| `XInput.ClicksShape` | lib/virtualtouchpad/event/xorg.py:107-113 | each click is a press immediately followed by a release of the same button |
| `XInput.WheelPresses` | lib/virtualtouchpad/event/xorg.py:105-113 | per axis only the button matching the sign is clicked, and forward presses minus back presses equal the signed count |
| `XInput.ClicksPresses` | lib/virtualtouchpad/event/xorg.py:107-113 | n clicks press their button n times and no other button |
| `XInput.WheelOnly` | lib/virtualtouchpad/event/xorg.py:105-113 | a wheel scroll presses no button other than forward and back |
| `XInput.RemainderBounds` | lib/virtualtouchpad/event/xorg.py:105-126 | with floor division the kept remainder lies in [0, 10) and acc = remainder + 10·clicks, also for negative acc |
| `XInput.ScrollConserves` | lib/virtualtouchpad/event/xorg.py:99-126 | no scroll distance is lost on either axis: old + delta = new + 10·(forward − back presses), both remainders in [0, 10), one direction per axis |
| `XInput.ScrollOrder` | lib/virtualtouchpad/event/xorg.py:103-124 | a scroll is a run of press/release pairs with every vertical click before every horizontal one |
| `XInput.StringToKeysym` | lib/virtualtouchpad/event/xorg.py:47-62 | XK lookup first, then the xkb `XK_<key>` attribute, then the default; ValueError exactly when all are falsy; a result is never 0 |
| `XorgEvent.Clamp` | lib/virtualtouchpad/event/xorg.py:43-44 | the result lies in [-32768, 32767], equals v inside it and the nearer bound outside |
| `XorgEvent.NewState` | lib/virtualtouchpad/event/xorg.py:85-96 | a fresh list [0, 0] |
| `XorgEvent.KeyDown` | lib/virtualtouchpad/event/xorg.py:65-72 | succeeds exactly when the symbol resolves (with the keysym as default) and then presses its keycode; otherwise injects nothing |
| `XorgEvent.KeyUp` | lib/virtualtouchpad/event/xorg.py:75-82 | as KeyDown, releasing the keycode |
| `XorgEvent.MouseDown` | lib/virtualtouchpad/event/xorg.py:85-89 | presses the button and returns a fresh [0, 0] |
| `XorgEvent.MouseUp` | lib/virtualtouchpad/event/xorg.py:92-96 | releases the button and returns a fresh [0, 0] |
| `XorgEvent.MouseScroll` | lib/virtualtouchpad/event/xorg.py:99-126 | returns the same list, updated in place to the two remainders, after injecting the vertical then the horizontal clicks owed |
| `XorgEvent.MouseMove` | lib/virtualtouchpad/event/xorg.py:129-140 | moves the pointer by the clamped deltas and returns a fresh [0, 0] |
| `LinuxEvent.Driver.constructor` | lib/virtualtouchpad/_platform/event/_linux.py:23-26 | the module-level accumulator starts as [0, 0] |
| `LinuxEvent.Driver.MouseScrollCancel` | lib/virtualtouchpad/_platform/event/_linux.py:28-32 | the accumulator is rebound to a fresh [0, 0] |
| `LinuxEvent.Driver.KeyDown` | lib/virtualtouchpad/_platform/event/_linux.py:53-60 | presses the resolved keycode, or fails with nothing injected, and leaves the accumulator untouched |
| `LinuxEvent.Driver.KeyUp` | lib/virtualtouchpad/_platform/event/_linux.py:63-70 | releases the resolved keycode, or fails with nothing injected, and leaves the accumulator untouched |
| `LinuxEvent.Driver.MouseDown` | lib/virtualtouchpad/_platform/event/_linux.py:73-78 | cancels scrolling, then presses the button |
| `LinuxEvent.Driver.MouseUp` | lib/virtualtouchpad/_platform/event/_linux.py:81-86 | cancels scrolling, then releases the button |
| `LinuxEvent.Driver.MouseScroll` | lib/virtualtouchpad/_platform/event/_linux.py:89-117 | updates the global list in place to the remainders after injecting the vertical then horizontal clicks owed |
| `LinuxEvent.Driver.MouseMove` | lib/virtualtouchpad/_platform/event/_linux.py:120-127 | cancels scrolling, then moves the pointer by the unclamped deltas |
| `Numbers.Trunc` | lib/virtualtouchpad/server/dispatchers/mouse.py:71-78 | `int(x)` truncates toward zero: within 1 of x, never past it away from zero; the Windows driver converts its deltas the same way |
| `ServerMouse.RestBounds` | lib/virtualtouchpad/server/dispatchers/mouse.py:55-64 | one axis loses no distance (a = rest + 10·clicks) and keeps a rest in [0, 10), also for negative a |
| `ServerMouse.ButtonFor` | lib/virtualtouchpad/server/dispatchers/mouse.py:32-46 | `Button[name]` with 'left' as the default name; an unknown name is KeyError |
| `ServerMouse.Handler.constructor` | lib/virtualtouchpad/server/dispatchers/mouse.py:27-30 | a new handler has ax = ay = 0 and has called nothing |
| `ServerMouse.Handler.Down` | lib/virtualtouchpad/server/dispatchers/mouse.py:32-38 | presses exactly the named button, or raises KeyError and presses nothing; accumulators unchanged |
| `ServerMouse.Handler.Up` | lib/virtualtouchpad/server/dispatchers/mouse.py:40-46 | releases exactly the named button, or raises KeyError and releases nothing; accumulators unchanged |
| `ServerMouse.Handler.Scroll` | lib/virtualtouchpad/server/dispatchers/mouse.py:48-69 | old ax + dx = new ax + 10·xscroll (and for y), both accumulators end in [0, 10), and the controller scrolls once exactly when either count is non-zero |
| `ServerMouse.Handler.Move` | lib/virtualtouchpad/server/dispatchers/mouse.py:71-78 | moves by the deltas truncated toward zero |
| `Win32Event.U16` | lib/virtualtouchpad/event/win32.py:61-71 | a `c_uint16` field keeps the value modulo 2^16, unchanged when it fits |
| `Win32Event.U32` | lib/virtualtouchpad/event/win32.py:37-71 | a `c_uint32` field keeps the value modulo 2^32, unchanged when it fits |
| `Win32Event.I32` | lib/virtualtouchpad/event/win32.py:37-58 | a `c_int32` field wraps in two's complement, unchanged when it fits |
| `Win32Event.IsDead` | lib/virtualtouchpad/event/win32.py:88-96 | true exactly for a non-empty symbol starting with `dead_` |
| `Win32Event.KeyEvent` | lib/virtualtouchpad/event/win32.py:118-144 | at most one record: Unicode with wScan = ord(name) for a one-character name, else the SYMS virtual key, else nothing for an unknown symbol |
| `Win32Event.SetDeadKey` | lib/virtualtouchpad/event/win32.py:99-115 | None clears; a name is stored with its combining character, and fails exactly when there is none |
| `Win32Event.KeyDownComposes` | lib/virtualtouchpad/event/win32.py:153-160 | with a key pending and a one-character composition, only the composed character is sent and the pending key is cleared |
| `Win32Event.KeyDownFlushes` | lib/virtualtouchpad/event/win32.py:153-171 | otherwise the pending character is sent first and the key is then handled as with nothing pending |
| `Win32Event.KeyDownDefers` | lib/virtualtouchpad/event/win32.py:164-171 | a dead-key symbol with a combining form becomes pending and sends nothing; without one it is sent as an ordinary key |
| `Win32Event.KeyDownStep` | lib/virtualtouchpad/event/win32.py:147-171 | `key_down` keeps the pending key valid and sends at most two records |
| `Win32Event.Driver.constructor` | lib/virtualtouchpad/event/win32.py:34 | `dead_key` starts as None and nothing is sent |
| `Win32Event.Driver.Send` | lib/virtualtouchpad/event/win32.py:31 | `SendInput` of one record appends it to what was sent |
| `Win32Event.Driver.SendKeyEvent` | lib/virtualtouchpad/event/win32.py:118-144 | sends exactly `KeyEvent(name, symbol, flags)` |
| `Win32Event.Driver.SetDead` | lib/virtualtouchpad/event/win32.py:99-115 | assigns the new pending key on success and nothing on error |
| `Win32Event.Driver.KeyDown` | lib/virtualtouchpad/event/win32.py:147-171 | pending key and records sent follow `KeyDownStep`, keeping the pending key valid |
| `Win32Event.Driver.KeyUp` | lib/virtualtouchpad/event/win32.py:174-175 | sends a release record and neither reads nor changes the pending key |
| `Win32Event.Driver.MouseDown` | lib/virtualtouchpad/event/win32.py:178-185 | sends the button's down flag; KeyError and nothing sent for a button other than 1, 2, 3 |
| `Win32Event.Driver.MouseUp` | lib/virtualtouchpad/event/win32.py:188-195 | sends the button's up flag; KeyError and nothing sent for a button other than 1, 2, 3 |
| `Win32Event.Driver.MouseScroll` | lib/virtualtouchpad/event/win32.py:198-207 | one wheel record carrying dy; the horizontal delta is dropped |
| `Win32Event.Driver.MouseMove` | lib/virtualtouchpad/event/win32.py:210-219 | one relative move by the truncated deltas |
| `Win32Event.ButtonFlagsDistinct` | lib/virtualtouchpad/event/win32.py:47-50 | buttons 1, 2, 3 map to pairwise distinct down and up flags |
| `PynputKeyboard.Keycode` | lib/virtualtouchpad/dispatchers/keyboard.py:25-43 | a dead key is taken whatever its form; an empty name raises IndexError; `<x>` is `Key[x]` (KeyError when absent); any other name is returned unchanged |
| `PynputKeyboard.KeycodeKeyName` | lib/virtualtouchpad/dispatchers/keyboard.py:38-43 | every special key and unbracketed literal is read back from its name |
| `PynputKeyboard.Handler.constructor` | lib/virtualtouchpad/dispatchers/keyboard.py:22-23 | a new handler has pressed nothing |
| `PynputKeyboard.Handler.Down` | lib/virtualtouchpad/dispatchers/keyboard.py:45-56 | presses exactly `keycode(name, is_dead)`; an error presses nothing |
| `PynputKeyboard.Handler.Up` | lib/virtualtouchpad/dispatchers/keyboard.py:58-69 | releases exactly `keycode(name, is_dead)`; an error releases nothing |
| `ServerKeyboard.Handler.constructor` | lib/virtualtouchpad/server/dispatchers/keyboard.py:22-23 | the state starts as None |
| `ServerKeyboard.Handler.Down` | lib/virtualtouchpad/server/dispatchers/keyboard.py:25-40 | one `key_down` call with the current state; its result becomes the state, which stays when the call raises |
| `ServerKeyboard.Handler.Up` | lib/virtualtouchpad/server/dispatchers/keyboard.py:42-57 | one `key_up` call with the current state; its result becomes the state, which stays when the call raises |
| `Dispatch.Call` | lib/virtualtouchpad/server/dispatchers/__init__.py:30-39 | a handler is invoked once, with data as keyword arguments, exactly when the command names one; an unknown command is KeyError with no handler invoked |
| `Dispatch.CallUsesOnlyItsHandler` | lib/virtualtouchpad/server/dispatchers/__init__.py:39 | only the handler of the whole command string matters |
| `Dispatch.CallWith` | lib/virtualtouchpad/routes/controller.py:51-61 | `dispatch(**command)`: anything but a dict with exactly the keys command and data is TypeError before dispatch |
| `Controller.StepOf` | lib/virtualtouchpad/routes/controller.py:34-61 | in both directions: an empty or missing message is skipped; `invalid_data` exactly when it does not decode; `invalid_command` exactly when dispatching raises TypeError; any other error is raised and never reported |
| `Controller.RunEnded` | lib/virtualtouchpad/routes/controller.py:51-61 | an exception other than TypeError ends the generator, and later messages change nothing |
| `Controller.FirstRaised` | lib/virtualtouchpad/routes/controller.py:34-61 | the first exception raised, taking the messages from the front; when there is none, no message's step raises |
| `Controller.FirstRaisedFirst` | lib/virtualtouchpad/routes/controller.py:34-61 | that exception is raised by the step of some message, and no earlier message's step raises |
| `Controller.Run` | lib/virtualtouchpad/routes/controller.py:34-61 | the generator fed the messages in order ends exactly with `FirstRaised`, the exception of the first message whose step raises; when none raises it runs through every message |
| `Controller.RunSnoc` | lib/virtualtouchpad/routes/controller.py:34-61 | one more message is one more turn of the loop after the ones before |
| `Controller.RunBounded` | lib/virtualtouchpad/routes/controller.py:34-61 | each message causes at most one dispatch and at most one report |
| `Controller.Connection.constructor` | lib/virtualtouchpad/routes/controller.py:28-32 | one dispatcher per generator, with a fresh key handler and a fresh mouse handler |
| `Controller.Connection.Send` | lib/virtualtouchpad/routes/controller.py:34-61 | one loop turn: the new state is the step of the message, adding at most one report and one invocation |
| `ServerController.Classify` | lib/virtualtouchpad/server/routes/controller.py:51-76 | in both directions: no report exactly when the message decodes and dispatches; `invalid_data` for a decode failure, `invalid_command` for KeyError, ValueError or TypeError, `internal_error` for any other exception, each naming that exception |
| `ServerController.ReportsAppend` | lib/virtualtouchpad/server/routes/controller.py:45-76 | a failure never stops the loop: the reports of consecutive messages concatenate |
| `ServerController.Leading` | lib/virtualtouchpad/server/routes/controller.py:45-49 | the messages handled are the text messages before the first close or socket error |
| `ServerController.Serve` | lib/virtualtouchpad/server/routes/controller.py:30-80 | no websocket aborts with 400; otherwise every leading message is dispatched or reported as classified, until None or a WebSocketError ends the loop |
| `ServerController.AsWrittenEndsOnBadData` | lib/virtualtouchpad/server/routes/controller.py:56 | as written, a message that does not decode ends the connection with NameError, where the intended loop reports `invalid_data` first |
| `Resolver.Global` | lib/virtualtouchpad/platform/__init__.py:126-129 | `globals_dict.get(name)`: present exactly when bound to something other than None |
| `Resolver.Import` | lib/virtualtouchpad/platform/__init__.py:119-166 | the name loop never removes a global, and any global it adds has a public name |
| `Resolver.ImportStops` | lib/virtualtouchpad/platform/__init__.py:119-166 | once the loop over the driver's names raises, later names change nothing |
| `Resolver.ImportFrame` | lib/virtualtouchpad/platform/__init__.py:119-166 | no global is added or removed, and names the loop does not reach are unchanged |
| `Resolver.ImportUntouched` | lib/virtualtouchpad/platform/__init__.py:119-166 | a name not yet reached keeps its global |
| `Resolver.ImportRaises` | lib/virtualtouchpad/platform/__init__.py:119-166 | the loop raises exactly when the rule raises for some public name, with the error of the first one |
| `Resolver.ImportReplaces` | lib/virtualtouchpad/platform/__init__.py:156-166 | when the loop completes, replaced names hold the rule's value and skipped names keep their global |
| `Resolver.Compare` | lib/virtualtouchpad/_platform/__init__.py:81-87 | the signature check passes exactly when both argument specifications are known and equal |
| `Resolver.StubRule` | lib/virtualtouchpad/_platform/__init__.py:64-91 | absent or None globals are skipped; a non-callable global is ImportError; otherwise the value replaces it, with the stub's docstring, when signatures agree |
| `Resolver.StubRuleReplacesOnlyCallables` | lib/virtualtouchpad/_platform/__init__.py:73-78 | the stub rule replaces only callable globals |
| `Resolver.Namespace.constructor` | lib/virtualtouchpad/_platform/__init__.py:27 | the namespace holds the given globals |
| `Resolver.Namespace.ImportSymbols` | lib/virtualtouchpad/_platform/__init__.py:64-91 | the globals and outcome are those of the name loop; replacements made before a raise stay |
| `Resolver.Subpackages` | lib/virtualtouchpad/_platform/__init__.py:21-24 | `__all__` is exactly the listed directories not starting with `_` |
| `Platform.Modules` | lib/virtualtouchpad/platform/__init__.py:34-44 | an ImportError inside `modules()` becomes ImplementationImportError; other outcomes pass unchanged |
| `Platform.Importables` | lib/virtualtouchpad/platform/__init__.py:59-82 | exactly the importable entries of the listing, as dotted names |
| `Platform.ImportableKinds` | lib/virtualtouchpad/platform/__init__.py:56-82 | private names never qualify; a public file exactly when it matches `_MODULE_RE`; a public directory exactly when it has `__init__.py[c]` |
| `Platform.StemHasNoDot` | lib/virtualtouchpad/platform/__init__.py:56 | a matching file's stem starts with a letter and holds no dot |
| `Platform.ImportedStem` | lib/virtualtouchpad/platform/__init__.py:105-109 | the module imported for a candidate is the file's stem |
| `Platform.LastLoadedFails` | lib/virtualtouchpad/platform/__init__.py:105-111 | the candidate loop fails exactly when an import raises something other than ImplementationImportError |
| `Platform.LastLoadedNone` | lib/virtualtouchpad/platform/__init__.py:105-115 | no driver exactly when every import raises ImplementationImportError |
| `Platform.LastLoadedLast` | lib/virtualtouchpad/platform/__init__.py:105-111 | the driver is the last candidate that imported |
| `Platform.LastLoadedStops` | lib/virtualtouchpad/platform/__init__.py:105-111 | after an import failure escapes, later candidates change nothing |
| `Platform.LastLoaded` | lib/virtualtouchpad/platform/__init__.py:105-115 | ImplementationImportError never escapes the candidate loop; a driver is found only among some candidates |
| `Platform.ExpandDoc` | lib/virtualtouchpad/platform/__init__.py:158-166 | the value's docstring gets the stub's appended after a blank line, or takes the stub's; TypeError when only the stub lacks one |
| `Platform.Rule` | lib/virtualtouchpad/platform/__init__.py:119-166 | absent globals skipped; non-callable global is ImportError; a class is checked on `__init__`, a function on itself; a replacement keeps the value's kind and signature |
| `Platform.RuleWith` | lib/virtualtouchpad/platform/__init__.py:119-166 | absent globals are skipped and non-callable ones raise ImportError; a replacement is only of a callable global, by a value of its kind, a class only with the stub's `__init__` arguments and a checked function only with the stub's arguments |
| `Platform.RuleReplacesOnlyCallables` | lib/virtualtouchpad/platform/__init__.py:128-133 | `implement` replaces only callable globals |
| `Platform.IsFunctionNotCalled` | lib/virtualtouchpad/platform/__init__.py:140 | a builtin callable raises TypeError as written but replaces the stub under the intended rule |
| `Platform.Implement` | lib/virtualtouchpad/platform/__init__.py:85-166 | an escaping import error or no driver leaves the globals unchanged and raises; otherwise the globals are those of the name loop on the last driver |
| `Platform.EventDriverAccepted` | lib/virtualtouchpad/event/__init__.py:21-119 | a driver binding fitting functions for the six event stubs is accepted, and each stub becomes the driver's function with both docstrings |
| `PrivatePlatform.Letters` | lib/virtualtouchpad/_platform/__init__.py:48 | keeps only letters, and keeps an all-letter name whole |
| `PrivatePlatform.PlatformDriver` | lib/virtualtouchpad/_platform/__init__.py:48 | `'_' + letters of sys.platform`: a private name followed only by letters |
| `PrivatePlatform.PlatformDriverDropsVersion` | lib/virtualtouchpad/_platform/__init__.py:48 | `linux2` selects `_linux`, `win32` selects `_win`: letters then a letterless version give `'_' + letters` |
| `PrivatePlatform.NoLetters` | lib/virtualtouchpad/_platform/__init__.py:48 | a version suffix without letters contributes nothing |
| `PrivatePlatform.LettersAppend` | lib/virtualtouchpad/_platform/__init__.py:48 | the letters of a concatenation are the concatenated letters |
| `PrivatePlatform.FirstLoadedFirst` | lib/virtualtouchpad/_platform/__init__.py:50-57 | the loop stops at the first candidate not raising ImportError, with its module or its exception |
| `PrivatePlatform.FirstLoadedNone` | lib/virtualtouchpad/_platform/__init__.py:50-60 | no driver exactly when every candidate raised ImportError |
| `PrivatePlatform.FirstLoaded` | lib/virtualtouchpad/_platform/__init__.py:50-60 | ImportError never escapes the candidate loop; a driver found is what importing one of the candidates gives |
| `PrivatePlatform.ImportSymbols` | lib/virtualtouchpad/_platform/__init__.py:27-91 | candidates then the platform driver are tried in order; ImportError when none imports, globals unchanged; otherwise the driver's symbols go through the stub rule |
| `OsEvent.ImportSymbols` | lib/virtualtouchpad/osevent/__init__.py:82-125 | exactly one driver, `'_' + letters of sys.platform`, is imported and an import failure propagates with globals unchanged; otherwise the stub rule replaces the stubs |
| `OsEvent.DriverAccepted` | lib/virtualtouchpad/osevent/__init__.py:19-125 | a driver of fitting functions for the six stubs is accepted, and each stub becomes the driver's function carrying the stub's docstring |
| `OsEvent.DriverMismatch` | lib/virtualtouchpad/osevent/__init__.py:115-121 | a driver function whose arguments differ from its stub's fails the import |
| `DispatcherNames.Names` | lib/virtualtouchpad/dispatchers/__init__.py:19-33 | no more names than files |
| `DispatcherNames.StemOfModule` | lib/virtualtouchpad/dispatchers/__init__.py:30 | dropping the last extension of `x.py` or `x.pyc` gives `x` |
| `DispatcherNames.ModuleOfStem` | lib/virtualtouchpad/dispatchers/__init__.py:30-33 | a kept file is its stem followed by `.py` or `.pyc` |
| `DispatcherNames.NamesMember` | lib/virtualtouchpad/dispatchers/__init__.py:19-38 | a name is listed exactly when a public file is that name plus `.py` or `.pyc` |
| `DispatcherNames.SourceAndCompiled` | lib/virtualtouchpad/dispatchers/__init__.py:30 | `x.py` and `x.pyc` give the single name `x` |
| `RoutesUtil.StripOne` | lib/virtualtouchpad/routes/_util.py:50-52 | the result is a prefix of the name, and a name without the extension is kept |
| `RoutesUtil.StripSpecial` | lib/virtualtouchpad/routes/_util.py:39-54 | a prefix of the path, unchanged when it ends in none of the extensions |
| `RoutesUtil.StripOneExtension` | lib/virtualtouchpad/routes/_util.py:50-52 | `name.ext` loses exactly `.ext` |
| `RoutesUtil.StripInOrder` | lib/virtualtouchpad/routes/_util.py:49-54 | extensions are stripped in the order listed: `x.js.gz` with `[gz, js]` gives `x` |
| `RoutesUtil.FirstIndex` | lib/virtualtouchpad/routes/_util.py:86-92 | the first index file that exists, with no earlier one existing; none exactly when none exists |
| `RoutesUtil.Lookup` | lib/virtualtouchpad/routes/_util.py:158 | a header is found exactly when one has that name |
| `RoutesUtil.TypeHeaders` | lib/virtualtouchpad/routes/_util.py:97-103 | Content-Type and Content-Encoding are set exactly when guessed |
| `RoutesUtil.ReadFile` | lib/virtualtouchpad/routes/_util.py:57-105 | a directory not ending in `/` redirects to `filepath/`; a `/` path serves its first existing index file or is not found; the body is the file's and the type headers come from the stripped name |
| `RoutesUtil.Conditional` | lib/virtualtouchpad/routes/_util.py:158-160 | the client's date is looked at exactly when a non-empty If-Modified-Since is sent; an unparseable one is a TypeError |
| `RoutesUtil.Answer` | lib/virtualtouchpad/routes/_util.py:146-168 | a redirect is a 302 to its location and a miss a 404; the answer fails exactly when a file was read and the client's date raised, with that error; otherwise 200 with the file's body, or 304 with no body and only after a parsed date |
| `RoutesUtil.StaticWith` | lib/virtualtouchpad/routes/_util.py:108-168 | a 302 exactly for a directory without its `/`, to `filepath/`; a response or a failure exactly when a file was read, whose body is what opening that file gives, or empty; failures are TypeError |
| `RoutesUtil.StaticReplies` | lib/virtualtouchpad/routes/_util.py:108-168 | redirects and misses pass through; 200 with the body without If-Modified-Since or when modified since; 304 with a Date and no body when not modified; every response carries Content-Length and Last-Modified |
| `RoutesUtil.AnswerHeaders` | lib/virtualtouchpad/routes/_util.py:146-166 | Content-Length and Last-Modified on every answer, Date on a 304 for an unmodified file |
| `RoutesUtil.LookupAfter` | lib/virtualtouchpad/routes/_util.py:146-165 | headers added after the type headers are found as if alone |
| `RoutesUtil.StaleCopyKept` | lib/virtualtouchpad/routes/_util.py:158-166 | a file modified after the client's date gets 304 and no body as written; 200 as intended |
| `RoutesUtil.AnswerStale` | lib/virtualtouchpad/routes/_util.py:158-168 | the 304 for a modified file, and the corrected answer equal to the unconditional one |
| `RoutesAiohttp.NameEnd` | lib/virtualtouchpad/routes/_routes_aiohttp.py:32-33 | the longest run of `[^:>]` from a position |
| `RoutesAiohttp.FilterEnd` | lib/virtualtouchpad/routes/_routes_aiohttp.py:32-33 | the longest run of `[^>]` from a position |
| `RoutesAiohttp.MatchStart` | lib/virtualtouchpad/routes/_routes_aiohttp.py:32-33 | a match spans at least `<x>` and lies within the template |
| `RoutesAiohttp.RewritePlainPrefix` | lib/virtualtouchpad/routes/_routes_aiohttp.py:85 | text before any `<` is copied unchanged |
| `RoutesAiohttp.RewritePlain` | lib/virtualtouchpad/routes/_routes_aiohttp.py:85 | a template without `<` is left as it is |
| `RoutesAiohttp.MatchName` | lib/virtualtouchpad/routes/_routes_aiohttp.py:32-33 | `<name>` is matched whole, without a filter |
| `RoutesAiohttp.MatchFiltered` | lib/virtualtouchpad/routes/_routes_aiohttp.py:32-33 | `<name:filter>` is matched whole, with its filter |
| `RoutesAiohttp.RewriteNameStart` | lib/virtualtouchpad/routes/_routes_aiohttp.py:74-85 | a leading `<name>` becomes `{name}` |
| `RoutesAiohttp.RewriteName` | lib/virtualtouchpad/routes/_routes_aiohttp.py:74-85 | `<name>` becomes `{name}`, the rest rewritten |
| `RoutesAiohttp.RewriteFilteredStart` | lib/virtualtouchpad/routes/_routes_aiohttp.py:74-85 | a leading `<name:path>` becomes `{name:[^{}]+}`, any other filter `{name}` |
| `RoutesAiohttp.RewriteFiltered` | lib/virtualtouchpad/routes/_routes_aiohttp.py:74-85 | `<name:path>` becomes `{name:[^{}]+}`, any other filter `{name}`, the rest rewritten |
| `RoutesAiohttp.Wrap` | lib/virtualtouchpad/routes/_routes_aiohttp.py:51-72 | a dict becomes a 200 JSON response of its dump, a response is passed on, anything else or a raise becomes 500 |
| `RoutesAiohttp.Texts` | lib/virtualtouchpad/routes/_routes_aiohttp.py:122-126 | one message sent per message received |
| `RoutesAiohttp.Pump` | lib/virtualtouchpad/routes/_routes_aiohttp.py:108-133 | only text messages are sent; the connection's state is the run over them; the loop stops at the first non-text message or the first send that raised |
| `RoutesAiohttp.TextsNext` | lib/virtualtouchpad/routes/_routes_aiohttp.py:122-126 | each further text message adds its data to what is sent |
| `Translations.Entry` | lib/virtualtouchpad/routes/translations.py:30-32 | an entry without `;q=` has quality 1; a failure is a ValueError from an entry with `;q=` |
| `Translations.Entries` | lib/virtualtouchpad/routes/translations.py:29-33 | every entry parsed in order; raises, with ValueError, exactly when one entry does |
| `Translations.Candidates` | lib/virtualtouchpad/routes/translations.py:28-35 | fails, with ValueError, exactly when one comma-separated entry of the header (or of `default` without one) fails; otherwise one candidate per entry plus `default` at quality 0, last |
| `Translations.Insert` | lib/virtualtouchpad/routes/translations.py:29-35 | one candidate longer |
| `Translations.InsertPermutes` | lib/virtualtouchpad/routes/translations.py:29-35 | insertion adds the candidate and loses nothing |
| `Translations.InsertDescending` | lib/virtualtouchpad/routes/translations.py:29-35 | insertion keeps the order by descending quality |
| `Translations.Sort` | lib/virtualtouchpad/routes/translations.py:29-35 | the sort keeps the length |
| `Translations.SortPermutes` | lib/virtualtouchpad/routes/translations.py:29-35 | the sort is a permutation |
| `Translations.SortDescending` | lib/virtualtouchpad/routes/translations.py:34-35 | highest quality first |
| `Translations.OfQualityAppend` | lib/virtualtouchpad/routes/translations.py:29-35 | the candidates of one quality in a concatenation are those of each part |
| `Translations.OfQualityNone` | lib/virtualtouchpad/routes/translations.py:29-35 | no candidate of a quality above all present |
| `Translations.OfQualityPrepend` | lib/virtualtouchpad/routes/translations.py:29-35 | the candidates of one quality after a leading candidate |
| `Translations.OfQualityInsert` | lib/virtualtouchpad/routes/translations.py:29-35 | an inserted candidate goes after every other of its quality |
| `Translations.SortStable` | lib/virtualtouchpad/routes/translations.py:29-35 | equal qualities keep header order, as Python's sort is stable |
| `Translations.Scripts` | lib/virtualtouchpad/routes/translations.py:38 | the script path `translations/<domain>/<language>.js` of each candidate |
| `Translations.FirstPresent` | lib/virtualtouchpad/routes/translations.py:37-42 | the first existing path with none before it existing; none exactly when none exists |
| `Translations.CandidatesOrder` | lib/virtualtouchpad/routes/translations.py:28-35 | every header entry once, highest quality first, ties in header order, then `default` with quality 0 |
| `Translations.NoSemicolon` | lib/virtualtouchpad/routes/translations.py:31-32 | an entry without `;` is its own tag and has no quality |
| `Translations.EntriesOne` | lib/virtualtouchpad/routes/translations.py:29-33 | a one-entry header gives that entry alone |
| `Translations.DefaultSplit` | lib/virtualtouchpad/routes/translations.py:28-33 | `default` splits to itself |
| `Translations.DefaultEntry` | lib/virtualtouchpad/routes/translations.py:28-32 | `default` has quality 1 |
| `Translations.DefaultEntries` | lib/virtualtouchpad/routes/translations.py:28-33 | the stand-in header is one entry of quality 1 |
| `Translations.NoHeader` | lib/virtualtouchpad/routes/translations.py:28-35 | without Accept-Language, `default` is tried at quality 1 and then 0 |
| `Translations.NegotiateServes` | lib/virtualtouchpad/routes/translations.py:37-42 | the script of the first candidate whose script exists is served; 404 exactly when none exists |
| `Translations.Negotiate` | lib/virtualtouchpad/routes/translations.py:28-42 | fails, with ValueError, exactly when the header does not parse; a script served exists |
| `Store.Path` | lib/virtualtouchpad/store.py:60 | an item splits into at least one part |
| `Store.SetIn` | lib/virtualtouchpad/store.py:44-88 | a successful write leaves a dict at the top; the only failure is ValueError |
| `Store.Lookup` | lib/virtualtouchpad/store.py:122-146 | the only failure is ValueError, and only for a non-empty path |
| `Store.SetInFailsLikeLookup` | lib/virtualtouchpad/store.py:57-81 | `_set` raises exactly where `get` raises: at a value on the path that is not a dict |
| `Store.SetInThenLookup` | lib/virtualtouchpad/store.py:83-88 | after `_set`, `get` gives the value written, or one equal to it by `==` when nothing was modified |
| `Store.LookupWellFormed` | lib/virtualtouchpad/store.py:122-146 | what `get` finds in a JSON tree is a JSON value |
| `Store.SetInKeepsOthers` | lib/virtualtouchpad/store.py:44-88 | `_set` changes no item whose path diverges from the one written |
| `Store.SetInChanged` | lib/virtualtouchpad/store.py:83-88 | `_set` reports a modification exactly when the value differs (`!=`) from the previous one |
| `Store.SetInWellFormed` | lib/virtualtouchpad/store.py:44-88 | writing a JSON value into a JSON tree gives a JSON tree |
| `Store.ItemsFromPaths` | lib/virtualtouchpad/store.py:90-104 | every item of `extract_items` is the dotted name of a leaf path |
| `Store.PathsToItems` | lib/virtualtouchpad/store.py:90-104 | every leaf path, dotted, is an item |
| `Store.LeafPathsSimple` | lib/virtualtouchpad/store.py:94-103 | the keys along a leaf path are keys of the tree; a dict's leaf paths are not empty |
| `Store.LeafPathsDiverge` | lib/virtualtouchpad/store.py:94-103 | no leaf lies under another |
| `Store.ItemsAreLeaves` | lib/virtualtouchpad/store.py:90-110 | with keys free of dots, `items` is exactly the set of dotted leaf paths |
| `Store.LeafPathLookup` | lib/virtualtouchpad/store.py:94-103 | every leaf path leads through `get` to a value that is not a dict |
| `Store.SetRun` | lib/virtualtouchpad/store.py:148-167 | `set` either succeeds or raises ValueError |
| `Store.UpdateRun` | lib/virtualtouchpad/store.py:199-210 | the inner `update` either succeeds or raises ValueError |
| `Store.FieldsRun` | lib/virtualtouchpad/store.py:200-204 | the loop over a dict's bindings either succeeds or raises ValueError |
| `Store.FieldsStopped` | lib/virtualtouchpad/store.py:200-204 | after a ValueError no further binding is walked |
| `Store.UpdateSetsLeaves` | lib/virtualtouchpad/store.py:188-210 | `update` only sets values that are not dicts |
| `Store.UpdateEmpty` | lib/virtualtouchpad/store.py:199-204 | an empty dict changes and notifies nothing |
| `Store.UpdateNotDict` | lib/virtualtouchpad/store.py:205-210 | a top-level value that is not a dict raises ValueError before any change |
| `Store.UpdateOne` | lib/virtualtouchpad/store.py:199-206 | `update({k: v})` of one leaf is `set(k, v)` |
| `Store.UpdateFlat` | lib/virtualtouchpad/store.py:188-210 | the inner `update` is `set` of each leaf of the value under its dotted item, in dict order |
| `Store.UpdateSpec` | lib/virtualtouchpad/store.py:188-210 | `update` of a dict whose leaf paths `get` can reach succeeds; every leaf reads back with its value by `==`; exactly the leaves whose value differed are notified, in dict order; what lies apart from every leaf is unchanged |
| `Store.SetsSpec` | lib/virtualtouchpad/store.py:148-167 | `set` of items that lie apart succeeds for each, each reads back its value, and exactly the changed ones are notified, in order |
| `Store.SetsKeep` | lib/virtualtouchpad/store.py:148-167 | `set`s of items apart from a path leave what `get` finds there unchanged |
| `Store.ChangedSame` | lib/virtualtouchpad/store.py:165-166 | which items count as changed depends only on what `get` finds for them |
| `Store.LeavesIn` | lib/virtualtouchpad/store.py:199-204 | every leaf walked by `update` is a leaf path of the value, where `get` finds the listed value |
| `Store.LeavesCover` | lib/virtualtouchpad/store.py:199-204 | every leaf path of the value is walked by `update` |
| `Store.LeavesApart` | lib/virtualtouchpad/store.py:199-204 | the leaves walked by `update` lie apart: no path is on or under another |
| `Store.LeafItemsApart` | lib/virtualtouchpad/store.py:199-204 | with keys free of dots, the dotted items `update` sets lie apart |
| `Store.SelectUnset` | lib/virtualtouchpad/store.py:179-186 | unset items are left out of the selection |
| `Store.SelectLast` | lib/virtualtouchpad/store.py:179-186 | the last item selected is in the result with its value |
| `Store.SelectSpec` | lib/virtualtouchpad/store.py:169-186 | `select(*items)` raises ValueError exactly when `get` raises for one item; otherwise a dict holding only what the data holds at the same place, every set item reading back with its value by `==`, and every leaf on or under a set item |
| `Store.SelectFails` | lib/virtualtouchpad/store.py:179-186 | the fold of `select` fails exactly when `get` fails for one of the remaining items |
| `Store.SelectGathers` | lib/virtualtouchpad/store.py:179-186 | what the fold gathers keeps its promise for the items done and the items remaining |
| `Store.SelectKeeps` | lib/virtualtouchpad/store.py:182-186 | selecting a later item keeps what an earlier item put in the result |
| `Store.SetInLeaf` | lib/virtualtouchpad/store.py:57-88 | every leaf after `_set` at a path was a leaf before, or lies on or under that path |
| `Store.SameSetIn` | lib/virtualtouchpad/store.py:57-88 | `_set` of a value found in a tree into a copy of the tree keeps the copy equal to the tree |
| `Store.SelectFrom` | lib/virtualtouchpad/store.py:179-186 | the fold of `select` fails only with ValueError, and a dict it starts from stays a dict |
| `Store.Store.constructor` | lib/virtualtouchpad/store.py:21-29 | an empty store with its notifier |
| `Store.Store.WithValues` | lib/virtualtouchpad/configuration/__init__.py:94-107 | `Store(notifier, **kwargs)`: the keyword values written with `_set` in order, so nothing is notified; a ValueError fails the construction |
| `Store.Store.Get` | lib/virtualtouchpad/store.py:122-146 | `get` walks the item's parts from the top of the tree |
| `Store.Store.SetQuiet` | lib/virtualtouchpad/store.py:44-88 | `_set` on the store's data: new data and the modified flag, or ValueError with the data unchanged |
| `Store.Store.Set` | lib/virtualtouchpad/store.py:148-167 | writes the item; the notifier gets `(item, value)` exactly when the value changed; ValueError leaves everything unchanged; `get` then gives the value |
| `Store.Store.Select` | lib/virtualtouchpad/store.py:169-186 | the loop computes the fold of `select`, so it keeps the promise of `SelectSpec`: ValueError exactly when `get` raises for an item, otherwise only the set items, each with its value |
| `Store.Store.Clear` | lib/virtualtouchpad/store.py:112-120 | each item notified at most once and only with None, and, with dot-free keys, exactly the items that were set; then an empty tree |
| `Store.ClearKeeps` | lib/virtualtouchpad/store.py:112-120 | each turn of `clear` finds its item where it was and changes no item still to be cleared |
| `Store.Store.UpdateAt` | lib/virtualtouchpad/store.py:199-208 | the inner `update` on the store: data, outcome and notifications those of the run |
| `Store.Store.UpdateFields` | lib/virtualtouchpad/store.py:200-204 | the binding loop of the inner `update`, as a run |
| `Store.Store.Update` | lib/virtualtouchpad/store.py:188-210 | every leaf set under its dotted item in dict order, one notification per change, stopping at the first ValueError; for a dict whose leaf paths `get` reaches, it succeeds, every leaf reads back with its value, and exactly the changed leaves are notified |
| `Configuration.NewValue` | lib/virtualtouchpad/configuration/__init__.py:21-46 | a value is read-only, not private and defaults to None unless told otherwise |
| `Configuration.ValueOf` | lib/virtualtouchpad/configuration/__init__.py:66-78 | a stored value other than None is returned as stored; when the store holds None the default getter's result is returned; a failure is the store's ValueError, or else the getter's failure after None was found |
| `Configuration.ValueOfAfterSet` | lib/virtualtouchpad/configuration/__init__.py:66-78 | after a write of a value other than None, reading gives it back without calling the default getter |
| `Configuration.Assign` | lib/virtualtouchpad/configuration/__init__.py:86-90 | a read-only value raises AttributeError and changes nothing; any other is written with `store.set` |
| `Configuration.ValueNames` | lib/virtualtouchpad/configuration/__init__.py:196-206 | exactly the names whose class attribute is a configuration value, in order |
| `Configuration.Values` | lib/virtualtouchpad/configuration/__init__.py:196-206 | one entry per configuration value among the names |
| `Configuration.ValuesRead` | lib/virtualtouchpad/configuration/__init__.py:196-206 | each entry is the configuration value of the name at that position with what it reads, in `dir` order |
| `Configuration.ValuesFail` | lib/virtualtouchpad/configuration/__init__.py:196-206 | `values` fails exactly when one of the configuration values fails to read |
| `Value.Value.constructor` | lib/virtualtouchpad/value.py:25-45 | the name, description and read-only flag given; without a default the getter gives None |
| `Value.Value.Read` | lib/virtualtouchpad/value.py:64-75 | None without a store; otherwise the configuration value's reading of the store's data, which is the stored value, or the default getter's result when the store holds None |
| `Value.Value.Set` | lib/virtualtouchpad/value.py:77-91 | read-only raises ValueError and changes nothing; without a store nothing happens; otherwise `store.set`, after which calling the value gives it back |
| `Value.Value.Notify` | lib/virtualtouchpad/value.py:93-111 | the closure is added for the block and removed after, even when the block raises; during the block the callback gets exactly the values notified for this item |
| `Notifier.Fanout` | lib/virtualtouchpad/notifier.py:33-36 | at most one delivery per registered callback |
| `Notifier.FanoutEach` | lib/virtualtouchpad/notifier.py:33-36 | no calls deliver nothing |
| `Notifier.DeliveredAppend` | lib/virtualtouchpad/notifier.py:33-36 | the deliveries of two runs of calls, appended to a log, are those of the joined run |
| `Notifier.FanoutEachAppend` | lib/virtualtouchpad/notifier.py:33-36 | two runs of calls deliver the first run's deliveries first |
| `Notifier.IndexOf` | lib/virtualtouchpad/notifier.py:48 | `list.index`: the first position of the callback; ValueError exactly when it is not registered |
| `Notifier.Notifier.constructor` | lib/virtualtouchpad/notifier.py:27-31 | no callbacks |
| `Notifier.Notifier.Call` | lib/virtualtouchpad/notifier.py:33-36 | every callback called once with the arguments, in registration order |
| `Notifier.Notifier.Add` | lib/virtualtouchpad/notifier.py:38-44 | a non-callable raises TypeError; a callback is appended unless already registered |
| `Notifier.Notifier.Remove` | lib/virtualtouchpad/notifier.py:46-50 | the callback is removed and the others keep their order; an unregistered one raises ValueError and changes nothing |
| `Notifier.Notifier.CallEach` | lib/virtualtouchpad/notifier.py:33-36 | the deliveries of a run of calls |
| `Notifier.Notifier.Registered` | lib/virtualtouchpad/notifier.py:52-62 | the callback receives the block's calls and is gone afterwards, even when the block raises |
| `Notifier.Notifier.NewClosure` | lib/virtualtouchpad/value.py:103-105 | a new closure, not yet registered |
| `Notifier.FanoutAppend` | lib/virtualtouchpad/notifier.py:33-36 | callbacks registered earlier are called first |
| `Notifier.AddRemoveRestores` | lib/virtualtouchpad/notifier.py:52-62 | adding then removing a new callback restores the list |
| `Notifier.FanoutForwarded` | lib/virtualtouchpad/value.py:103-105 | a closure forwards the value set for its own item |
| `Notifier.ForwardedToAppend` | lib/virtualtouchpad/value.py:103-105 | what is forwarded over two runs is forwarded over each, in order |
| `Notifier.FanoutForwardsNone` | lib/virtualtouchpad/value.py:103-105 | without a closure for a callback, nothing reaches it |
| `Notifier.ClosureReceives` | lib/virtualtouchpad/value.py:94-111 | the callback gets exactly the values notified for its item, in order |
| `Notifier.OneCallForwards` | lib/virtualtouchpad/value.py:103-105 | one call forwards its value exactly when the item is the closure's |
| `Status.FormatUrl` | lib/virtualtouchpad/status.py:42-44 | the URL starts with `http://` and ends with `/` |
| `Status.ServerUrl` | lib/virtualtouchpad/status.py:38-44 | the server URL from the stored host and port; ValueError exactly when either read raises |
| `Status.UrlParts` | lib/virtualtouchpad/status.py:42-44 | host and port are recovered from the URL by its one colon |
| `Status.NoColonInInt` | lib/virtualtouchpad/status.py:42-44 | an integer's decimal text has no colon |
| `Status.DigitStrings` | lib/virtualtouchpad/status.py:31 | `str` of each version number |
| `Status.VersionString` | lib/virtualtouchpad/status.py:31 | only digits and dots; one number gives its decimal text |
| `Status.VersionParts` | lib/virtualtouchpad/status.py:31 | the version string splits on dots back into its numbers |
| `Status.Members` | lib/virtualtouchpad/status.py:26-44 | four read-only members with distinct names: version, host, port and URL, the version and URL computed by their defaults |
| `Status.Status.Init` | lib/virtualtouchpad/status.py:62-70 | the notifier and store given, no values yet |
| `Status.Status.Create` | lib/virtualtouchpad/status.py:48-73 | a new store updated with the keyword arguments (a ValueError fails it), then one value per member in order, each the attribute of its name |
| `Status.Status.AddValue` | lib/virtualtouchpad/status.py:71-73 | one more value, describing the member, set as its attribute |
| `Status.Status.Iter` | lib/virtualtouchpad/status.py:75-76 | every attribute's value is iterated, and every value shares the status's store and notifier |
| `Keyboard.SetModifierMeaning` | lib/virtualtouchpad/html/js/lib/keyboard.js:66-115 | only `mod-shift` and `mod-altgr` are acted on; the modifier asked for gets the value, the other keeps its own, and the classes stay consistent |
| `Keyboard.SetModifierOneClass` | lib/virtualtouchpad/html/js/lib/keyboard.js:82-115 | from exactly one modifier class, a real change leaves exactly one |
| `Keyboard.WithModifier` | lib/virtualtouchpad/html/js/lib/keyboard.js:82-115 | setting a modifier changes only the modifier classes |
| `Keyboard.StrayNone` | lib/virtualtouchpad/html/js/lib/keyboard.js:105-113 | turning off Shift while only AltGr is on adds `mod-none` beside `mod-altgr`, and AltGr still reads as on |
| `Keyboard.Index` | lib/virtualtouchpad/html/js/lib/keyboard.js:470 | the layout slot index is below 4 |
| `Keyboard.IndexInjective` | lib/virtualtouchpad/html/js/lib/keyboard.js:470 | the four slots are told apart by the two modifiers |
| `Keyboard.ResolveSlot` | lib/virtualtouchpad/html/js/lib/keyboard.js:460-474 | a key without a symbol of its own reads slot `shift + 2 * altgr` of its layout entry |
| `Keyboard.Resolve` | lib/virtualtouchpad/html/js/lib/keyboard.js:460-474 | a resolved key always has a symbol; a key naming no layout slot keeps its own keysym and symbol; nothing is resolved only for a key without a symbol of its own |
| `Keyboard.ModifierKeys` | lib/virtualtouchpad/html/js/lib/keyboard.js:476-491 | AltGr follows its key, Shift either Shift key, Caps Lock toggles Shift on press, every other key leaves the modifiers alone |
| `Keyboard.AfterKey` | lib/virtualtouchpad/html/js/lib/keyboard.js:476-491 | a key changes only the modifier classes |
| `Keyboard.HandleConsistent` | lib/virtualtouchpad/html/js/lib/keyboard.js:450-496 | handling a key keeps the modifier classes consistent |
| `Keyboard.Handle` | lib/virtualtouchpad/html/js/lib/keyboard.js:450-496 | the touches are kept; a key event is sent exactly when the key resolves, and then it is the one event added; otherwise events and modifiers are unchanged; the key is marked pressed exactly when pressed |
| `Keyboard.Step` | lib/virtualtouchpad/html/js/lib/keyboard.js:402-437 | events are only appended, at most two per touch; a start tracks the touch's key; an end that completes forgets the touch |
| `Keyboard.RunSnoc` | lib/virtualtouchpad/html/js/lib/keyboard.js:298-311 | one more touch handled after the ones before, unless one of them raised |
| `Keyboard.Run` | lib/virtualtouchpad/html/js/lib/keyboard.js:298-311 | events are only appended, at most two per touch |
| `Keyboard.RunStops` | lib/virtualtouchpad/html/js/lib/keyboard.js:298-311 | after an exception no further touch is handled |
| `Keyboard.RunConsistent` | lib/virtualtouchpad/html/js/lib/keyboard.js:402-437 | touch handlers keep the modifier classes consistent |
| `Keyboard.MoveOntoNewKey` | lib/virtualtouchpad/html/js/lib/keyboard.js:413-427 | sliding onto another key releases the old key, then presses and tracks the new one |
| `Keyboard.MoveOffKeys` | lib/virtualtouchpad/html/js/lib/keyboard.js:413-427 | sliding off every key releases the key but keeps it tracked, so sliding back presses nothing |
| `Keyboard.EndForgets` | lib/virtualtouchpad/html/js/lib/keyboard.js:429-437 | lifting releases the tracked key and forgets the touch; a touch that never reached a key raises TypeError |
| `Keyboard.Keyboard.constructor` | lib/virtualtouchpad/html/js/lib/keyboard.js:141-147 | no touches, and `mod-none` added: no modifier toggled |
| `Keyboard.Keyboard.SetModifier` | lib/virtualtouchpad/html/js/lib/keyboard.js:148-163 | the `shift` and `altgr` setters change the classes as `setModifier` does |
| `Keyboard.Keyboard.HandleKey` | lib/virtualtouchpad/html/js/lib/keyboard.js:450-496 | `_handleKey` on the keyboard's state |
| `Keyboard.Keyboard.Touch` | lib/virtualtouchpad/html/js/lib/keyboard.js:402-437 | one touch's callback on the keyboard's state |
| `Keyboard.Keyboard.OnTouch` | lib/virtualtouchpad/html/js/lib/keyboard.js:402-437 | a touch handler over all its touches, in order |
| `Util.Copy` | lib/virtualtouchpad/html/js/lib/util.js:33-40 | the copy keeps the identifier and the screen and client coordinates |
| `Util.Cloned` | lib/virtualtouchpad/html/js/lib/util.js:29-44 | one copy per touch in order; a missing list gives none |
| `Util.Identified` | lib/virtualtouchpad/html/js/lib/view.js:244-245 | a touch found has the identifier asked for; none found means none has it |
| `Util.CloneTouches` | lib/virtualtouchpad/html/js/lib/util.js:29-44 | the loop builds exactly the copies |
| `Util.ReplaceAll` | lib/virtualtouchpad/html/js/lib/util.js:50-54 | text without the character is unchanged; replacing by a non-empty entity never shortens it and empties only empty text |
| `Util.ReplaceAllAppend` | lib/virtualtouchpad/html/js/lib/util.js:50-54 | replacement distributes over concatenation |
| `Util.XmlEscapeAppend` | lib/virtualtouchpad/html/js/lib/util.js:49-55 | escaping distributes over concatenation |
| `Util.XmlEscape` | lib/virtualtouchpad/html/js/lib/util.js:49-55 | escaping never shortens the text and gives nothing exactly for nothing |
| `Util.XmlEscapeChar` | lib/virtualtouchpad/html/js/lib/util.js:49-55 | the chain of replacements escapes one character by its own entity |
| `Util.XmlEscapeEscapes` | lib/virtualtouchpad/html/js/lib/util.js:49-55 | `xmlEscape` is the character-by-character escape: the later replacements never touch what `&amp;` wrote |
| `Util.EscapeRoundTrip` | lib/virtualtouchpad/html/js/lib/util.js:49-55 | unescaping gives the text back: nothing escaped twice, nothing lost |
| `Util.XmlEscapeSafe` | lib/virtualtouchpad/html/js/lib/util.js:49-55 | no `<`, `>`, `"` or `'` is left, every `&` starts an entity reference, and text without special characters is unchanged |
| `BrowserConfiguration.Get` | lib/virtualtouchpad/html/js/lib/configuration.js:41-75 | the stored value read by the default's type, or the default; anything but a boolean, number or string default comes back as given |
| `BrowserConfiguration.ToString` | lib/virtualtouchpad/html/js/lib/configuration.js:89-92 | `toString` exists exactly for values other than undefined and null; a string is itself; a boolean is `true` exactly when true |
| `BrowserConfiguration.Stringify` | lib/virtualtouchpad/html/js/lib/configuration.js:93-95 | `String(value)` agrees with `toString` where that exists, and is empty only for the empty string or a number formatted as nothing |
| `BrowserConfiguration.Configuration.constructor` | lib/virtualtouchpad/html/js/lib/configuration.js:80-95 | the storage, Web Storage or the in-memory map |
| `BrowserConfiguration.Configuration.Read` | lib/virtualtouchpad/html/js/lib/configuration.js:82-88 | a value is read exactly when one is stored |
| `BrowserConfiguration.Configuration.GetValue` | lib/virtualtouchpad/html/js/lib/configuration.js:41-75 | `get` on what is stored under the name |
| `BrowserConfiguration.Configuration.Set` | lib/virtualtouchpad/html/js/lib/configuration.js:77-95 | Web Storage stores `String(value)`; the map stores `value.toString()`, raising TypeError for null and undefined and changing nothing |
| `BrowserConfiguration.BoolRoundTrip` | lib/virtualtouchpad/html/js/lib/configuration.js:41-95 | a boolean written reads back with a boolean default |
| `BrowserConfiguration.StringRoundTrip` | lib/virtualtouchpad/html/js/lib/configuration.js:41-95 | a non-empty string reads back as written, the empty string as the default |
| `BrowserConfiguration.NumberRoundTrip` | lib/virtualtouchpad/html/js/lib/configuration.js:41-95 | a number reads back wherever `parseFloat` reads its text back |
| `View.Clicked` | lib/virtualtouchpad/html/js/lib/view.js:110-133 | nothing while a click is pending; otherwise a click of a copy of the current touches is scheduled |
| `View.TouchStart` | lib/virtualtouchpad/html/js/lib/view.js:194-200 | the touches become current and the movement counts as short; click, drag-and-drop and events are untouched |
| `View.Fired` | lib/virtualtouchpad/html/js/lib/view.js:119-131 | the scheduled click sends button down then up, right for two touches and left otherwise, and is no longer pending |
| `View.Scroll` | lib/virtualtouchpad/html/js/lib/view.js:84-96 | natural scrolling unless `false` is stored: the deltas are reversed |
| `View.TouchEnd` | lib/virtualtouchpad/html/js/lib/view.js:202-216 | after a short touch, drag-and-drop ends with a left button up, or else a click of the current touches is asked for; a long touch sends nothing; the touches are forgotten unless it raised |
| `View.MovePendingStartsDrag` | lib/virtualtouchpad/html/js/lib/view.js:226-240 | moving while a click is pending cancels it and starts drag-and-drop with a left button down first |
| `View.TouchMove` | lib/virtualtouchpad/html/js/lib/view.js:226-267 | no click is pending afterwards; drag-and-drop is on exactly when it was or a click was pending; at most two events are appended |
| `View.Track` | lib/virtualtouchpad/html/js/lib/view.js:241-267 | nothing changes unless tracking happens; click and drag-and-drop are kept; at most one event is appended |
| `View.TrackMoved` | lib/virtualtouchpad/html/js/lib/view.js:241-250 | when as many touches change as are current and the first is among them, the changed touches become current and the movement grows by the first touch's distance |
| `View.TrackEvents` | lib/virtualtouchpad/html/js/lib/view.js:241-267 | one finger moves the pointer by the accelerated delta, two fingers scroll by the scroll delta, more send nothing |
| `View.TrackCases` | lib/virtualtouchpad/html/js/lib/view.js:241-267 | only when as many touches change as are current: one finger moves the pointer, two scroll, the movement grows by the first finger's distance and the changed touches become current |
| `View.TapClicks` | lib/virtualtouchpad/html/js/lib/view.js:194-216 | a tap of one finger clicks left, of two right |
| `View.TapAndDrag` | lib/virtualtouchpad/html/js/lib/view.js:194-267 | tap, touch again and move: left button down for drag-and-drop, up when a later short touch ends |
| `View.Touchview.constructor` | lib/virtualtouchpad/html/js/lib/view.js:34-53 | nothing pending, no drag, nothing measured |
| `View.Touchview.ClickInProgress` | lib/virtualtouchpad/html/js/lib/view.js:140-142 | true exactly when a click is pending |
| `View.Touchview.Click` | lib/virtualtouchpad/html/js/lib/view.js:110-133 | `click` on the view's state |
| `View.Touchview.Fire` | lib/virtualtouchpad/html/js/lib/view.js:119-131 | the timer's callback on the view's state |
| `View.Touchview.ClickCancel` | lib/virtualtouchpad/html/js/lib/view.js:150-159 | true exactly when a click was pending; none is pending afterwards |
| `View.Touchview.DndStart` | lib/virtualtouchpad/html/js/lib/view.js:166-171 | drag-and-drop starts with a left button down |
| `View.Touchview.DndEnd` | lib/virtualtouchpad/html/js/lib/view.js:187-192 | drag-and-drop ends with a left button up |
| `View.Touchview.OnTouchStart` | lib/virtualtouchpad/html/js/lib/view.js:194-200 | the touches become current and the movement starts at 0 |
| `View.Touchview.OnTouchEnd` | lib/virtualtouchpad/html/js/lib/view.js:202-216 | `onTouchEnd` on the view's state |
| `View.Touchview.OnTouchMove` | lib/virtualtouchpad/html/js/lib/view.js:226-267 | `onTouchMove` on the view's state |
| `Trackbar.ToNumber` | lib/virtualtouchpad/html/js/lib/trackbar.js:58-63 | NaN has no number; null counts as 0 |
| `Trackbar.Add` | lib/virtualtouchpad/html/js/lib/trackbar.js:242 | NaN plus anything is NaN, and nothing else is |
| `Trackbar.Clamp` | lib/virtualtouchpad/html/js/lib/trackbar.js:58-63 | the value, the minimum or the maximum; NaN stays NaN |
| `Trackbar.ClampInRange` | lib/virtualtouchpad/html/js/lib/trackbar.js:136-141 | with ordered bounds, a number is brought into range, one in range is kept, one below gives the minimum and one above the maximum |
| `Trackbar.Defaults` | lib/virtualtouchpad/html/js/lib/trackbar.js:229-243 | a NaN value or minimum becomes 0 and a NaN maximum the minimum plus 1; anything else is kept |
| `Trackbar.DefaultsCases` | lib/virtualtouchpad/html/js/lib/trackbar.js:229-243 | NaN attributes give 0 in [0, 1]; null attributes are kept |
| `Trackbar.Created` | lib/virtualtouchpad/html/js/lib/trackbar.js:56-91 | the bounds given, inactive, no touch, nothing dispatched |
| `Trackbar.SetTo` | lib/virtualtouchpad/html/js/lib/trackbar.js:136-147 | the clamped value is stored and `valuechanged` is dispatched with that value current; nothing else changes |
| `Trackbar.CreatedValid` | lib/virtualtouchpad/html/js/lib/trackbar.js:56-65 | a trackbar with ordered bounds and a number for value starts in range |
| `Trackbar.SetToValid` | lib/virtualtouchpad/html/js/lib/trackbar.js:129-147 | `setValue` keeps the value in range, and stores a value in range unchanged |
| `Trackbar.StartValid` | lib/virtualtouchpad/html/js/lib/trackbar.js:149-162 | multi-finger touches are ignored; one finger activates, tracks that finger and sets the value in range from its position |
| `Trackbar.StartAsWrittenLosesValue` | lib/virtualtouchpad/html/js/lib/trackbar.js:156-159 | as written, a one-finger touch sets and dispatches NaN, leaving the range |
| `Trackbar.MoveValid` | lib/virtualtouchpad/html/js/lib/trackbar.js:179-196 | nothing without a tracked touch, changed touches or the tracked finger among them; otherwise the value follows the finger, in range |
| `Trackbar.Move` | lib/virtualtouchpad/html/js/lib/trackbar.js:179-196 | bounds, activity and the tracked touch are kept; either nothing changes or `valuechanged` is dispatched once with the new value current |
| `Trackbar.EndStopsTracking` | lib/virtualtouchpad/html/js/lib/trackbar.js:164-169 | lifting keeps the value, deactivates, and makes later moves do nothing |
| `Trackbar.End` | lib/virtualtouchpad/html/js/lib/trackbar.js:164-169 | inactive with no tracked touch; value, bounds and the values recorded at each `valuechanged` dispatch are kept |
| `Trackbar.Trackbar.constructor` | lib/virtualtouchpad/html/js/lib/trackbar.js:56-91 | the trackbar as created |
| `Trackbar.Trackbar.Value` | lib/virtualtouchpad/html/js/lib/trackbar.js:120-127 | a valid trackbar's value lies between its bounds |
| `Trackbar.Trackbar.SetValue` | lib/virtualtouchpad/html/js/lib/trackbar.js:136-147 | `setValue` on the trackbar's state |
| `Trackbar.Trackbar.OnTouchStart` | lib/virtualtouchpad/html/js/lib/trackbar.js:149-162 | the corrected `onTouchStart` on the trackbar's state; false where it raises |
| `Trackbar.Trackbar.OnTouchEnd` | lib/virtualtouchpad/html/js/lib/trackbar.js:164-169 | `onTouchEnd` on the trackbar's state |
| `Trackbar.Trackbar.OnTouchMove` | lib/virtualtouchpad/html/js/lib/trackbar.js:179-196 | `onTouchMove` on the trackbar's state |
| `MakeLayout.ModifierSymbols` | scripts/make-layout.py:39-56 | the Shift keys are shift and not altgr, the level 3 shift is altgr and not shift, nothing is both |
| `MakeLayout.DisplayName` | scripts/make-layout.py:119-125 | a missing display name becomes empty |
| `MakeLayout.Join` | scripts/make-layout.py:128-142 | no parts join to nothing, one part to itself |
| `MakeLayout.Describe` | scripts/make-layout.py:128-142 | empty exactly without modifiers; one modifier alone is named |
| `MakeLayout.DescribeCases` | scripts/make-layout.py:128-142 | the four descriptions; empty exactly without modifiers |
| `MakeLayout.FlagsIgnoreOthers` | scripts/make-layout.py:145-171 | events other than shift and altgr leave the flags alone |
| `MakeLayout.Flags` | scripts/make-layout.py:145-171 | Shift is on only after some shift event, AltGr only after some altgr event |
| `MakeLayout.FlagsLast` | scripts/make-layout.py:155-165 | the last shift event and the last altgr event decide the flags |
| `MakeLayout.WaitForModifiers` | scripts/make-layout.py:145-171 | stops right after the first prefix whose flags are the targets, or fails at the end of the events |
| `MakeLayout.SlotsCovered` | scripts/make-layout.py:187-209 | the four rounds fill the four slots once each, the slot the on-screen keyboard reads for the same modifiers |
| `MakeLayout.Digit` | scripts/make-layout.py:209 | a decimal digit |
| `MakeLayout.Decimal` | scripts/make-layout.py:209 | a decimal numeral is not empty |
| `MakeLayout.Pad2` | scripts/make-layout.py:209 | two digits for numbers below 100 |
| `MakeLayout.RowLetter` | scripts/make-layout.py:209 | rows are lettered E to B |
| `MakeLayout.KeyId` | scripts/make-layout.py:209 | `A`, the row letter, then the column: four characters with two digits below column 99 |
| `MakeLayout.KeyIdInjective` | scripts/make-layout.py:209 | no two keys share a key id |
| `MakeLayout.FirstKeyIds` | scripts/make-layout.py:204-209 | the rows start at AE00, AD01, AC01 and AB01 |
| `MakeLayout.Scan` | scripts/make-layout.py:214-237 | the events skipped, and the first shift or altgr event (a RuntimeError) or the first release of a key not yet recorded |
| `MakeLayout.Store` | scripts/make-layout.py:225-234 | the slot is set, the key's other slots and the other keys are kept, and a new key starts with four empty slots |
| `MakeLayout.CaptureKey` | scripts/make-layout.py:214-237 | waiting for one key: the scan, and on a find the code recorded and the slot stored |
| `MakeLayout.StoreAdvances` | scripts/make-layout.py:214-237 | recording a key extends the keys done by one and loses nothing |
| `MakeLayout.RowFinished` | scripts/make-layout.py:214-237 | a finished row moves the capture to the next row |
| `MakeLayout.GrowsTransitive` | scripts/make-layout.py:214-237 | filled slots stay filled over several captures |
| `MakeLayout.CaptureRound` | scripts/make-layout.py:214-237 | a successful round fills the round's slot of every key of every row |
| `MakeLayout.AllRoundsComplete` | scripts/make-layout.py:174-253 | after four rounds every described key has all four slots |
| `MakeLayout.RoundsKept` | scripts/make-layout.py:187-244 | slots filled in earlier rounds stay filled |
| `MakeLayout.MakeLayout` | scripts/make-layout.py:174-253 | the layout is well formed, and complete when the events run to the end of the fourth round |

## Left out

- Operating-system injection is modelled as appends to an event log. Xlib, pyatspi, `SendInput` and the pynput controllers are not modelled.
- Foreign functions are parameters of the model. This covers:
  - Unicode normalisation and the name lookups of `unicodedata`;
  - the X keysym tables;
  - `json.loads` of a websocket message (the controllers' `Decoder`) and `json.dumps` of a GET handler's dict (the `dumps` parameter of `RoutesAiohttp.Wrap`);
  - `mimetypes.guess_type` and `email.utils.parsedate`;
  - `float()` and `parseFloat`, and number formatting;
  - `resource.exists`, `resource.isdir` and `resource.open_stream`.
- Reflection in the resolvers is not modelled. Modules are maps from names to symbols. A callable is described by its kind and argument list, standing in for `inspect.getargspec`. Whether a module imports is an input.
- Exceptions are named by their type. An exception whose type derives from ImportError, such as ModuleNotFoundError, is named ImportError, and that is what `with modules()` converts. ImplementationImportError is a type of its own, as in the source.
- The stubs' bodies, which raise NotImplementedError until replaced, are not modelled.
- Module import caching is not modelled. Each resolver runs once, when its module is imported.
- Exception messages, `str(exception)` and tracebacks are not modelled. An error report carries its reason and the exception's type name.
- Logging is not modelled.
- `Controller.Connection.constructor`: lib/virtualtouchpad/routes/controller.py:22 imports `Dispatcher` from `virtualtouchpad.dispatchers`, whose `__init__.py` defines only `_names` and `__all__`, so the module cannot be imported as written. The model builds the key and mouse dispatcher of the `Dispatch` module in its place.
- `Store.Store.Set`: `_canonical`, the `json.loads(json.dumps(value))` round trip (lib/virtualtouchpad/store.py:31-42, 164), is not modelled. Values are taken as already canonical JSON, so the TypeError for a value JSON cannot serialise is not modelled either.
- `server/routes/controller.py` imports `dispatch` from `server/dispatchers/__init__.py`, which does not define it. The model takes the dispatch function as a parameter.
- Floating point is not modelled; real numbers are exact:
  - the mouse handler's deltas are reals, converted by `int()` (`Numbers.Trunc`);
  - the event drivers' scroll deltas (`XorgEvent.MouseScroll`, `LinuxEvent.Driver.MouseScroll`, `Win32Event.Driver.MouseScroll`) are integers, so the TypeError that a fractional delta raises in `range(abs(... // SCROLL_THRESHOLD))` (lib/virtualtouchpad/event/xorg.py:105-110, lib/virtualtouchpad/_platform/event/_linux.py:98-103) is not modelled;
  - dates are integers;
  - Accept-Language qualities are reals (`Translations.Candidate`);
  - the modification time is compared as `int(st_mtime)`;
  - browser-side positions and distances are reals, with no NaN or Infinity except in `Trackbar.Num`.
- JSON numbers are integers only (`Json.JInt`). Floating-point values in stored configuration data and in websocket commands are not modelled, and neither is Python's `1 == 1.0` in `Json.PyEq`.
- Request header names are taken as already lower-cased, as the aiohttp wrapper delivers them.
- The `os.stat` fallback to `sys.argv[0]` is not modelled; the modification time is an input.
- Static-file bodies are bytes (`RoutesUtil.Bytes`). The aiohttp wrapper's response bodies and websocket messages are strings of characters.
- An HTTPException raised by a GET handler is caught by `except Exception` like any other exception and becomes a 500 (lib/virtualtouchpad/routes/_routes_aiohttp.py:54-72). `RoutesAiohttp.Wrap` models this, so such an exception's own status is not kept.
- Serving the negotiated script through `routes/_static.py` is not modelled. That module is not part of this model. `Translations.Negotiate` gives the path that is served.
- Letter tests are ASCII. `str.isalpha` on other Unicode letters is not modelled.
- OrderedDict output order and the `json.dump` of the captured layout are not modelled.
- The `xev` reading in `event_strings` and `keyboard_events`, and the prompts printed, are not modelled. The script reads a sequence of decoded key events.
- `document.elementFromPoint` and the walk up to a key element are not modelled. Each touch arrives with the key it is over.
- The layout XHR and `_applyLayout` of the on-screen keyboard are not modelled. The layout is a constructor argument.
- `navigator.vibrate` is not modelled.
- `View` does not model `_calculateMovement` (`Math.sqrt` and `Math.pow`) or the pointer acceleration. They are the parameters `Env.norm` and `Env.accelerate`.
- The click timer is not modelled as time. The click fires when `View.Touchview.Fire` is called.
- The touchpad's `touchcancel` listener does nothing and is not modelled. Its `touchleave` listener is `onTouchEnd`, as in the source.
- The trackbar's `onTouchCancel` and `onTouchLeave` do nothing and are not modelled.
- `Trackbar.Trackbar.OnTouchStart`, `Trackbar.Trackbar.OnTouchMove` and `Trackbar.Start` take `_xToValue` as the parameter `xToValue`, because it reads element geometry. `_refresh` only sets a style and is not modelled.
- The `eval` of the trackbar's attributes is not modelled. Their results are inputs of type `Trackbar.Num`.
- The trackbar's binding to a configuration property (trackbar.js:250-264) is not modelled. It is a `configuration.set` and `configuration.get` on `valuechanged`.
- `Value.Value.Notify`: the block is abstracted to the notifier calls it makes and whether it raises.
- `Store.Store.Clear`: when a key is empty or holds a dot, it only states that each item is notified at most once and only with None. With such keys, `items` no longer names the paths `set` walks.
- `Notifier.Notifier.Call`: callbacks never raise in the model. In lib/virtualtouchpad/notifier.py:33-36 an exception from a callback skips the callbacks after it and propagates out of the store's `set`, `update` and `clear` after the data was written; that path is not modelled.
- Whitespace stripping covers ASCII whitespace only (`Strings.IsSpace`). The other characters Python's `str.strip()` removes (`\x1c` to `\x1f`, `\x85`, `\xa0` and other Unicode spaces) are not stripped by `Translations.Entry` and `RoutesUtil.Conditional`.
- Concurrency is not modelled: the notifier's lock, the websocket tasks and `asyncio`.

## Findings

| source | as written | input that shows it | evidently intended | confidence | as-written member | corrected member |
|---|---|---|---|---|---|---|
| lib/virtualtouchpad/server/routes/controller.py:56-76 | the error paths call `sys.exc_info()` and `traceback.extract_tb`, but neither `sys` nor `traceback` is imported, so NameError escapes the receive loop | a message `x` that is not JSON, followed by any valid commands | report `invalid_data` (or `invalid_command`, `internal_error`) and go on with the next message | not executed | `ServerController.LoopAsWritten`, `ServerController.AsWrittenEndsOnBadData` | `ServerController.Serve` |
| lib/virtualtouchpad/platform/__init__.py:140 | `elif inspect.isfunction:` tests the function object, which is always true, so every non-class driver value has its signature read | a builtin callable as the driver value, whose argument list `getargspec` cannot read, so the import fails with TypeError | check signatures only when `inspect.isfunction(value)`, and replace other callables without a check | not executed | `Platform.RuleAsWritten`, `Platform.IsFunctionNotCalled` | `Platform.Rule` |
| lib/virtualtouchpad/routes/_util.py:158-166 | the 304 `return` is outside the date comparison, so any request with If-Modified-Since gets 304 | If-Modified-Since earlier than the modification time | 304 only when the resource has not changed since that date, 200 with the body otherwise | not executed | `RoutesUtil.StaticAsWritten`, `RoutesUtil.StaleCopyKept` | `RoutesUtil.Static`, `RoutesUtil.StaticReplies` |
| lib/virtualtouchpad/html/js/lib/trackbar.js:156-159 | the value is set from `pageX` of the copy `cloneTouches` made, which copies no `pageX`, so the position is `undefined` and the value NaN | any one-finger touch on the trackbar | set the value from the touch's own `pageX` | not executed | `Trackbar.StartAsWritten`, `Trackbar.StartAsWrittenLosesValue` | `Trackbar.Start`, `Trackbar.StartValid` |
