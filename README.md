# momd in Dafny

momd ("menu of menus daemon") is a small Go HTTP service. It serves a tree
of menu items as one JSON document at `/` and registers each item's own
HTTP handler under the item's path. This project models its sequential core
and proves its properties:

- **Server** (`server.dfy`) covers the HTTP server package:
  - the default settings and the functional options (`WithPort`,
    `WithHandler`, `WithTLS`, ...);
  - `New`, a class constructor that applies the options to a server in
    order;
  - `Serve`, as a sequential method. The outcomes of `net.Listen`,
    `tls.LoadX509KeyPair`, `http.Server.Serve` and `http.Server.Shutdown`
    are its parameters. It records what it does in a ghost trace of steps
    and moves through the lifecycle Created → Bound → Running →
    Stopped/Error.
- **Decimal** (`decimal.dfy`): the `%d` rendering of the port in the
  listen address, and a parser that inverts it.
- **MenuItem** and **Menu** (`item.dfy`, `menu.dfy`) cover:
  - the recursive item datatype;
  - the JSON objects that the struct tags produce: `path` and `title`
    always, the handler never, and the `omitempty` fields only when they
    are non-empty;
  - a decoder that proves nothing but the handlers is lost;
  - the `RegisterHandlers`/`registerItem` walk, modelled as the sequence
    of `(pattern, handler)` pairs it passes to its callback.
- **Runner** (`runner.dfy`): how `Menu.Run` builds the list of server
  options for `New`, and `Run` itself.
- **Logger** (`logger.dfy`): `ParseLogLevel` with ASCII `TrimSpace` and
  `ToLower`.
- **Json**, **Http** and **Wrappers** are shared vocabulary:
  - a JSON value tree;
  - opaque handlers and routes;
  - an `Option` type with `:-` support.

## Model

| member | source | states |
|---|---|---|
| Server.Defaults | pkg/server/server.go:225-235 | Definition: the struct literal `New` starts from, holding the default constants, no TLS and an empty mux. |
| Server.ApplyAll | pkg/server/server.go:237-239 | Definition: the `for _, opt := range opts` loop as a left fold of `ApplyOption`. |
| Server.NoOptionsDefaults | pkg/server/server.go:225-235 | With no options, the configuration is: port 9876, read and write timeouts 10s, idle timeout 60s, shutdown timeout 5s, 1 MiB of headers, no TLS, no routes. |
| Server.ApplyOption | pkg/server/server.go:113-201 | One option changes exactly the field it targets, to the value it carries, and leaves every other field alone. `WithHandler` and `WithSimpleHealth` only append their route, `/healthz` for the latter. |
| Server.LastSetter | pkg/server/server.go:237-239 | Returns the position of the last option that writes a field: that option writes it and no later one does, or no option writes the field. |
| Server.LastOptionWins | pkg/server/server.go:237-239 | After the left-to-right fold, a field holds the value of the last option that sets it, or its starting value if none does. |
| Server.RoutesInOrder | pkg/server/server.go:237-239 | The fold registers handlers in option order, after the routes already present. |
| Server.ApplyAllAppend | pkg/server/server.go:237-239 | Applying `a + b` is applying `a`, then `b`. |
| Server.RoutesOfAllAppend | pkg/server/server.go:237-239 | The routes of `a + b` are those of `a`, then those of `b`. |
| Server.Address | pkg/server/server.go:320 | The listen address is a colon followed by the decimal rendering of the port. |
| Server.AddressParses | pkg/server/server.go:320 | The port can be parsed back from the address. |
| Server.AddressInjective | pkg/server/server.go:320 | Different ports give different addresses. |
| Server.HttpServerOf | pkg/server/server.go:319-327 | Definition: the `http.Server` literal, built from the configuration's address, mux and limits. |
| Server.ServeError.Message | pkg/server/server.go:339-384 | Each error message wraps, and ends with, its cause. |
| Server.ListenerOf | pkg/server/server.go:349-354 | Definition: the TCP listener on the address, wrapped by `tls.NewListener` with the loaded certificate and TLS 1.2 as the floor when TLS is configured. |
| Server.ServeTrace | pkg/server/server.go:318-410 | Definition: the steps of one `Serve` call. Listen, then with TLS load the key pair, closing the listener if that fails. Then set `running`, serve, reset `running`, and enter Stopped or Error. |
| Server.ServeResult | pkg/server/server.go:383-407 | Definition: the wrapped listen error, then the wrapped certificate error, then the wrapped serve error unless it is `ErrServerClosed`, otherwise nil. The shutdown outcome is not an input. |
| Server.RunningAfterStep | pkg/server/server.go:370-380 | One more step changes the running value only if it is a `SetRunning` step, and then to that step's value. |
| Server.ServingSteps | pkg/server/server.go:369-388 | The serve goroutine goes from Bound to Running, then to Stopped or Error by how serving ended. `running` is true from its first step until the reset, and false after it. |
| Server.SetupSteps | pkg/server/server.go:335-364 | Setup never sets `running`. It enters Bound iff the bind succeeds. It closes the listener iff the bind succeeds, TLS is configured and the key pair does not load. With TLS and a successful bind, it loads the configured key pair. |
| Server.TlsSetupSteps | pkg/server/server.go:343-354 | Loading the key pair leaves the server Bound, or moves it to Error when the load fails. |
| Server.ServeFollowsMachine | pkg/server/server.go:318-410 | From any idle phase, every phase change of a `Serve` call is a lifecycle transition. The call ends Stopped exactly when it returns nil, and in Error otherwise. |
| Server.MachineAppend | pkg/server/server.go:318-410 | Phase tracking composes over concatenated steps. |
| Server.RunningAfterKeeps | pkg/server/server.go:370-380 | Steps that do not touch `running` leave it as it was. |
| Server.ServeRunningWindow | pkg/server/server.go:370-380 | Whenever `running` is true, the listener is bound, not closed, and the key pair is loaded if TLS is on. `running` is true while serving and false when `Serve` returns. It becomes true at all iff the bind and any key-pair load succeed. |
| Server.RunningWindowAt | pkg/server/server.go:370-380 | The same three facts at one position of the trace. |
| Server.RunningDuringSetup | pkg/server/server.go:335-364 | Before the serve goroutine starts, `running` is false and nothing has been served. |
| Server.RunningDuringServing | pkg/server/server.go:366-388 | Inside the serve goroutine's steps, the setup has succeeded and the listener is bound and open. |
| Server.ResultMatchesTrace | pkg/server/server.go:383-407 | The result is nil iff the setup succeeds and serving ends with `ErrServerClosed`. A listen or certificate error is returned exactly when `running` was never set. A shutdown error never reaches the result. |
| Server.TlsListenerSetup | pkg/server/server.go:343-354 | A failed key-pair load closes the listener and gives up. A successful one serves on a TLS listener that holds exactly that one certificate, with TLS 1.2 as the minimum version. |
| Server.Server.IsRunning | pkg/server/server.go:277-282 | Definition: reads the `running` field. |
| Server.Server.New | pkg/server/server.go:221-247 | A new server is idle, not running, and configured as the defaults with every option applied in order. Its `running` field agrees with its (empty) trace. |
| Server.Server.Apply | pkg/server/server.go:113-201 | Running one option's closure on the fields updates them as `ApplyOption` does. |
| Server.Server.AddHandler | pkg/server/server.go:256-260 | Appends one registration to the mux and changes nothing else. |
| Server.Server.OpenListener | pkg/server/server.go:329-364 | Listen, then optionally load the key pair and wrap the listener. On success the server is Bound on the listener `ListenerOf` names. On failure it is in Error with the listen or certificate error. |
| Server.Server.ServeOnListener | pkg/server/server.go:366-388 | Appends the serve goroutine's steps and ends Stopped with nil or in Error with the wrapped serve error. The `running` field agrees with the trace's last `SetRunning` step after every step, so it is true at `ServeOn` and false on return. |
| Server.Server.Serve | pkg/server/server.go:318-410 | Keeps the configuration and leaves the server idle and not running. The `running` field stays equal to the running value of the trace. Appends exactly the `ServeTrace` steps. Returns the classified error and ends Stopped iff it returns nil. |
| Decimal.FromNat | pkg/server/server.go:320 | The decimal digits of a natural number: non-empty, all digits, and no leading zero. |
| Decimal.FromInt | pkg/server/server.go:320 | `%d` of an integer: a minus sign exactly for negative numbers. |
| Decimal.NatRoundTrip | pkg/server/server.go:320 | The digits read back as the number. |
| Decimal.IntRoundTrip | pkg/server/server.go:320 | Parsing the rendering of any integer gives that integer back. |
| Decimal.FromIntInjective | pkg/server/server.go:320 | Different integers render differently. |
| Logger.TrimLeft | pkg/logger/logger.go:46 | A suffix of the input whose removed prefix is all white space and whose first character is not white space. |
| Logger.TrimRight | pkg/logger/logger.go:46 | A prefix of the input whose removed suffix is all white space and whose last character is not white space. |
| Logger.TrimSpace | pkg/logger/logger.go:46 | The result starts and ends with something other than white space, and is no longer than the input. |
| Logger.TrimSpaceIsSlice | pkg/logger/logger.go:46 | The input is the result with white space before and after it. |
| Logger.LowerChar | pkg/logger/logger.go:46 | Upper-case ASCII letters map to their lower-case letters, and every other character is kept. |
| Logger.ToLower | pkg/logger/logger.go:46 | Lower-cases the string character by character and keeps its length. |
| Logger.Normalize | pkg/logger/logger.go:46 | Definition: `strings.ToLower(strings.TrimSpace(level))`, the key the switch matches on. |
| Logger.ParseLogLevel | pkg/logger/logger.go:43-58 | Debug iff the normalised input is "debug". Warn iff it is "warn" or "warning". Error iff it is "error". The function is total. |
| Logger.TrimmedIsFixed | pkg/logger/logger.go:46 | Trimming a trimmed string changes nothing. |
| Logger.ToLowerIdempotent | pkg/logger/logger.go:46 | Lower-casing twice is lower-casing once. |
| Logger.LowerKeepsTrimmed | pkg/logger/logger.go:46 | Lower-casing keeps a trimmed string trimmed. |
| Logger.NormalizeIdempotent | pkg/logger/logger.go:46 | Trimming and lower-casing a second time changes nothing. |
| Logger.ParseNormalized | pkg/logger/logger.go:46 | Parsing the normalised input gives the same level as parsing the input. |
| Logger.TrimPadded | pkg/logger/logger.go:46 | Trimming a non-empty trimmed word padded with white space gives back the word. |
| Logger.TrimLeftPadded | pkg/logger/logger.go:46 | Leading white space is removed, and nothing more. |
| Logger.TrimRightPadded | pkg/logger/logger.go:46 | Trailing white space is removed, and nothing more. |
| Logger.ParseIgnoresCaseAndPadding | pkg/logger/logger.go:46-52 | Each level's name, in any letter case and with any surrounding white space, parses as that level. |
| Logger.UnknownIsInfo | pkg/logger/logger.go:53-57 | Any input that does not normalise to one of the four names parses as Info, the empty string included. |
| MenuItem.ToJson | pkg/menu/item.go:6-22 | The object starts with `path`, even when it is empty, then `title`. It has `description` iff that is non-empty and `items` iff there are children. There is no other key, so there is never a handler key. |
| MenuItem.ToJsonAll | pkg/menu/item.go:21 | Each child is serialised by the same rules, in order. |
| MenuItem.Erase | pkg/menu/item.go:12 | The serialisable part of an item. The handler is dropped, `path`, `title` and `description` are kept, and each child is erased in turn. |
| MenuItem.EraseAll | pkg/menu/item.go:21 | Erases each child of a list, position by position, and keeps its length. |
| MenuItem.RoundTrip | pkg/menu/item.go:6-22 | Decoding an item's JSON gives back the item without its handlers. |
| MenuItem.OptionalMembersDecode | pkg/menu/item.go:18-21 | The `omitempty` members decode to the fields they came from. |
| MenuItem.RoundTripAll | pkg/menu/item.go:21 | The same as `RoundTrip`, for a whole child list. |
| Menu.ToJson | pkg/menu/menu.go:10-28 | The menu's object always starts with `title`. |
| Menu.MenuJsonKeys | pkg/menu/menu.go:12-21 | The keys, in order, are `title`, then `description`, `version` and `items`, each exactly when its field is non-empty. |
| Menu.MenuJsonHasKey | pkg/menu/menu.go:12-21 | `title` is always present. Each `omitempty` key is present iff its field is non-empty. |
| Menu.MenuJsonKeysKnown | pkg/menu/menu.go:12-21 | The object has no key other than the four field names. |
| Menu.MenuRoundTrip | pkg/menu/menu.go:24-28 | Decoding the menu's JSON gives back the menu without its item handlers. |
| Menu.MenuOmitEmptyDecode | pkg/menu/menu.go:15-21 | The menu's `omitempty` members decode to the fields they came from. |
| Menu.RegisterHandlers | pkg/menu/menu.go:32-36 | The `register` calls of the walk are exactly the handler-bearing nodes in pre-order, one call per such node. |
| Menu.RegisterItems | pkg/menu/menu.go:33-35 | Definition: the loop over a slice of items, walking each one in slice order. |
| Menu.RegisterItem | pkg/menu/menu.go:39-47 | A node with a handler is registered first, under its own path, before its children are walked. |
| Menu.PreOrder | pkg/menu/menu.go:33-46 | The pre-order list of a forest begins with its first node and has at least as many nodes as the forest's top level. |
| Menu.RegistrationsAppend | pkg/menu/menu.go:33-46 | The registrations of two node lists, one after the other, are the concatenation of their registrations. |
| Menu.WalkIsPreOrder | pkg/menu/menu.go:32-47 | The walk registers exactly the handler-bearing nodes, in pre-order: a parent before its descendants, siblings in slice order. |
| Menu.RegisterItemsAppend | pkg/menu/menu.go:33-35 | The sibling lists are walked in slice order. |
| Menu.RegisterCount | pkg/menu/menu.go:32-47 | There is one `register` call per handler-bearing node of the whole tree. |
| Menu.RegistrationsMember | pkg/menu/menu.go:40-42 | A route is registered iff some node carries it. |
| Menu.RegisteredIff | pkg/menu/menu.go:40-42 | `register(p, h)` is called iff some node of the tree has path `p` and handler `h`. Parents' paths are never prefixed. |
| Menu.Patterns | pkg/menu/menu.go:41 | Returns the patterns of the routes, in order. |
| Menu.SampleMenu | cmd/momd/main.go:38-72 | Definition: `makeMenu`'s tree with version "v0.0.0". It has two top-level items, and the second has two subitems, each with its own handler. |
| Menu.SampleWalk | cmd/momd/main.go:38-72 | The sample menu registers `/item1`, `/item2`, `/item2/subitem1` and `/item2/subitem2`, in that order. |
| Runner.RootHandler | pkg/menu/runner.go:27 | Definition: the `m.Handler()` that `Run` registers at `/`, as the menu's JSON document it answers with. |
| Runner.OptionList | pkg/menu/runner.go:22-33 | Definition: the caller's options, then `WithHandler("/", m.Handler())`, then one `WithHandler` per `register` call. |
| Runner.HandlerOptions | pkg/menu/runner.go:31-33 | One `WithHandler(pattern, h)` per registration, in the same order. |
| Runner.AssembleOptions | pkg/menu/runner.go:22-33 | The appends of `Run` build exactly `OptionList`: the caller's options, the root `/` handler, then the walk's handlers. |
| Runner.OptionListShape | pkg/menu/runner.go:22-33 | The list has length len(caller options) + 1 + the number of handler-bearing nodes. It starts with the caller's options, unchanged, and the root handler comes right after them. |
| Runner.OptionListHandlers | pkg/menu/runner.go:31-33 | After the root handler, position `i` holds `WithHandler` for the walk's `i`-th registration. |
| Runner.HandlerRoutes | pkg/menu/runner.go:31-33 | The handler options register exactly the walk's routes. |
| Runner.HandlersKeepFields | pkg/menu/runner.go:31-33 | Handler options change no configuration field. |
| Runner.CallerSettingsKept | pkg/menu/runner.go:26-36 | Every configuration field of the server `Run` builds is what the caller's options alone give, e.g. `WithPort`. |
| Runner.ServerRoutes | pkg/menu/runner.go:26-36 | The built server registers the caller's routes, then `/` with the menu document, then the walk's routes. |
| Runner.Run | pkg/menu/runner.go:18-37 | `Run` returns what `Serve` returns for the built server. That is the same result as a server built from the caller's options alone. |

## Left out

Behaviour of the source that the model does not capture:

- **Concurrency.** The two goroutines of `Serve`, the `errgroup`, context cancellation and the `sync.RWMutex` are out. `Serve` is sequential, and its inputs say how the calls ended: a server error wins, and a cancelled context leads to `ErrServerClosed`. `AddHandler`'s read lock is out too, and it is not proved thread-safe.
- **Shutdown.** The shutdown goroutine's timeout and its call to `Shutdown` do not appear in the trace. A shutdown result is a parameter that is only logged, as the code does at pkg/server/server.go:401-407.
- **Shutdown errors, doc versus code.** The doc comments at pkg/server/server.go:50-51 and 297 say `Serve` returns an error when shutdown fails. The code only logs it and returns nil from the shutdown goroutine. The model follows the code: `ServeResult` has no shutdown input, and `Server.ResultMatchesTrace` states that a shutdown error never reaches the result.
- **Foreign calls.** `net.Listen`, `tls.LoadX509KeyPair`, `tls.NewListener`, `http.Server.Serve` and `Shutdown` are abstract results, and a certificate is an opaque value. `listener.Close` is a trace step.
- **`http.ServeMux`.** Request matching and what happens on duplicate patterns live in net/http. The mux is an ordered log of registrations, and last-write-wins is not claimed.
- **`ServeMux.Handle` panics.** `Handle` panics on an empty or malformed pattern, a nil handler or a conflicting registration (`WithHandler`, pkg/server/server.go:161; `AddHandler`, 259). An item's `Path` may be empty (pkg/menu/item.go:8), so such an item makes `server.New` panic when `Run` builds the server. The model's `New`, `Apply`, `AddHandler` and `Runner.Run` never fail: they record `Route("", h)` like any other route.
- **Time.** Durations are integers of nanoseconds. No timeout is enforced.
- **Logging and metrics.** These are out:
  - `slog` calls;
  - `logger.New`, which reads `LOG_LEVEL` and installs the default logger;
  - the `logger.SetDefaultLogger` call in `Run`, a function that is not part of this model;
  - the server's `errLog` and the Prometheus registry;
  - pkg/metric/counter.go.
- **`Menu.Handler`.** It writes the HTTP response. It appears only as the handler value it registers, which holds the menu's JSON.
- **JSON bytes.** Escaping, whitespace and the encoder's output are out. The model states which keys appear, in what order, and that decoding gives back the data.
- **Unicode.** `TrimSpace` and `ToLower` work on ASCII only. Unicode white space such as U+0085 and U+00A0, and non-ASCII case mapping, are out.
- **nil and empty.** A nil slice and an empty slice are the same sequence, so `Run`'s nil check changes nothing here. Go's `append` aliasing into a caller's backing array is out.
- **Other programs.** The macOS status-bar app (macos/momd/AppDelegate.swift) and the entry points cmd/momd/main.go and main.go are I/O and flag parsing. Only `makeMenu`'s tree is used, as `Menu.SampleMenu`.
- **Interfaces.** `HealthChecker` is an interface with no implementation in the core. So is `ReadinessChecker`.
- Server.Server.Serve: models one call on a server that is idle (`Valid()`). Calling `Serve` concurrently with itself is a concurrency matter and is not modelled.
