# request-invoice: listener registry and invoice handlers

A Dafny model of the core of the `request-invoice` plugin for a Lightning node. The plugin does two things:

- It keeps a registry (`jobs`) from port to the thread serving HTTP on that port. The `invoiceserver` plugin command drives it with start, stop, status and restart.
- It serves two HTTP handlers. Each turns a request into one call of the node's `invoice` RPC.

The model is functional. The registry is an immutable `map<int, Handle>`. `start_server` and `stop_server` are pure functions that return the new registry or the error they raise; a raised error leaves the registry as it was. The dispatcher returns its reply (a string, or an exception) together with the registry it leaves behind. The handlers are pure functions of:

- the request,
- the `uuid4()` token that ends the label,
- the RPC, passed in as a function.

The thread's `terminate()` is a parameter too. It may return or raise.

Files:
- `wrappers.dfy`: `Option` and `Result`.
- `decimal.dfy`: Python `str()` of an integer, used in every reply that names the port, with its parser and the round trip.
- `registry.dfy`: `start_server` and `stop_server`.
- `control.dfy`: the `invoiceserver` command, restart, the `init` hook, and command sequences.
- `handlers.dfy`: `getinvoice` (path form) and `getinvoiceLNUrl` (query form).

The model follows the code on these points:
- The query form accepts a negative amount, because `int("-1")` parses.
- Restart on a stopped server raises. The exception is not turned into a string.
- There is no lock, so the registry is modelled sequentially.
- Binding happens inside the worker thread, after the entry is registered. A bind failure therefore leaves the entry in place. The model's start always registers.

## Model

| member | source | states |
|---|---|---|
| Registry.StartServer | request-invoice/requestinvoice.py:72-80 | fails with AlreadyRunning exactly when the port is registered; otherwise adds exactly that port, bound to (address, port), and keeps every other entry |
| Registry.StopServer | request-invoice/requestinvoice.py:83-88 | fails with NotRunning on a vacant port; propagates a raising terminate with the entry kept; succeeds exactly when the port is present and terminate returns, removing only that port |
| Registry.OperationsAreLocal | request-invoice/requestinvoice.py:72-88 | start and stop change no port other than their own, whatever the outcome |
| Registry.StartThenStop | request-invoice/requestinvoice.py:72-88 | on a vacant port, when terminate returns on the new handle, stop undoes start and gives back the original registry |
| Registry.StopThenStart | request-invoice/requestinvoice.py:72-88 | after a successful stop a start on the same port succeeds, and restores the registry when the address is the same |
| Registry.ThreadTerminate | request-invoice/requestinvoice.py:76-85 | terminate on a threading.Thread always raises |
| Registry.ThreadStopNeverSucceeds | request-invoice/requestinvoice.py:83-88 | with the thread's missing terminate, stop never succeeds and never changes the registry |
| Registry.CooperativeShutdown | request-invoice/requestinvoice.py:85 | the corrected terminate returns for every handle, so the delete on line 86 always runs |
| Registry.CooperativeStopRemovesPort | request-invoice/requestinvoice.py:84-86 | with a shutdown that returns, stop succeeds exactly on running ports and removes exactly that port |
| Decimal.NatToString | request-invoice/requestinvoice.py:112 | the formatted port is a non-empty digit string with no leading zero |
| Decimal.IntToString | request-invoice/requestinvoice.py:112-129 | str(port) starts with a minus sign exactly when the port is negative, and the rest is a non-empty digit string with no leading zero |
| Decimal.IntRoundTrip | request-invoice/requestinvoice.py:112 | parsing the formatted integer gives it back |
| Decimal.IntToStringInjective | request-invoice/requestinvoice.py:129 | two integers format alike exactly when they are equal |
| Control.ParseCommand | request-invoice/requestinvoice.py:101-107 | the three words stop, status and restart select their command; everything else, including no word, selects start |
| Control.StartCommand | request-invoice/requestinvoice.py:109-116 | the start command never raises: on a running port it returns "Error starting server on port N: " followed by the AlreadyRunning message and keeps the registry; on a vacant port it returns "Invoice server started successfully on port N" and registers exactly that port on the configured address, keeping every other entry |
| Control.StopCommand | request-invoice/requestinvoice.py:118-125 | the stop command never raises: on a vacant port it returns "Could not stop server on port N: " followed by the NotRunning message; when terminate raises it returns the same prefix followed by terminate's message; both keep the registry; when terminate returns it replies "Invoice server stopped on port N" and removes only that port |
| Control.StatusCommand | request-invoice/requestinvoice.py:127-131 | the status command returns a string and leaves the registry unchanged |
| Control.InvoiceServer | request-invoice/requestinvoice.py:101-136 | for a string command: only the configured port can change; only restart can raise, and a raise leaves the registry unchanged; a newly registered handle serves the configured address and port |
| Control.RestartCommand | request-invoice/requestinvoice.py:133-136 | restart returns "Invoice server restarted" exactly when the port is running and terminate returns, and then the port is re-registered on the configured address with every other entry kept; otherwise it raises stop's error with the registry unchanged |
| Control.ErrorMessage | request-invoice/requestinvoice.py:74-88 | str(e) of the two ValueErrors ends with the port they name; a raised terminate keeps its own message |
| Control.ValueErrorMessagesDiffer | request-invoice/requestinvoice.py:74-88 | two ValueError messages are equal exactly when they come from the same check on the same port |
| Control.UnknownCommandIsStart | request-invoice/requestinvoice.py:105-107 | any word outside the four commands, or none, behaves exactly as "start" |
| Control.StartStopNeverRaise | request-invoice/requestinvoice.py:109-125 | start and stop return strings; a failed start or stop leaves the registry unchanged; start registers the port, and stop removes it exactly when terminate returns |
| Control.FailureTexts | request-invoice/requestinvoice.py:109-125 | the exact strings returned for start on a running port and for stop on a vacant port, written out with the ValueError messages of lines 74 and 88 |
| Control.StatusReportsMembership | request-invoice/requestinvoice.py:127-131 | status says active exactly when the port is registered and inactive exactly when it is not; the active text names the port; nothing changes |
| Control.RestartOnRunningPort | request-invoice/requestinvoice.py:133-136 | on a running port whose terminate returns, restart is stop then start, and the port is registered afterwards on the configured address |
| Control.RestartFailures | request-invoice/requestinvoice.py:133-136 | on a vacant port restart raises NotRunning, does not attempt the start and leaves the registry unchanged; a raising terminate propagates the same way |
| Control.Init | request-invoice/requestinvoice.py:139-144 | the init hook's start on the empty registry succeeds and registers only the configured port |
| Control.Run | request-invoice/requestinvoice.py:101-136 | successive invoiceserver calls change no entry except the configured port's |
| Control.RunStaysConfigured | request-invoice/requestinvoice.py:101-144 | after any sequence of commands the registry holds at most the configured port, bound to the configured address |
| Control.ThreadListenerNeverStops | request-invoice/requestinvoice.py:83-136 | with the thread's missing terminate, a registered port stays registered through any sequence of commands |
| Control.ThreadStopReply | request-invoice/requestinvoice.py:83-125 | with the thread's missing terminate, "stop" on a running port returns "Could not stop server on port N: 'Thread' object has no attribute 'terminate'" and keeps the port |
| Control.CooperativeRestartSucceeds | request-invoice/requestinvoice.py:133-136 | with a shutdown that returns, restart on a running port returns "Invoice server restarted" |
| Handlers.Label | request-invoice/requestinvoice.py:34 | the label is the fixed prefix followed by the token |
| Handlers.LabelToken | request-invoice/requestinvoice.py:34 | the token can be read back from the label, so distinct tokens give distinct labels |
| Handlers.PathFormCall | request-invoice/requestinvoice.py:32-35 | the path form asks for amount x 1000 millisatoshi, with a prefixed label carrying the token and the description verbatim |
| Handlers.GetInvoice | request-invoice/requestinvoice.py:31-36 | the path form succeeds exactly when the RPC does, and returns its invoice object unchanged; an RPC error propagates |
| Handlers.GetInvoiceForwards | request-invoice/requestinvoice.py:32-36 | whatever invoice object the RPC returns for (amount x 1000, "ln-getinvoice-" + token, description) is the response, unchanged |
| Handlers.Truncate | request-invoice/requestinvoice.py:50 | the truncated comment is a prefix of the comment, of length min(length, 640) |
| Handlers.TruncateProperties | request-invoice/requestinvoice.py:50 | comments of at most 640 characters pass unchanged, longer ones are cut to 640, and truncating twice equals truncating once |
| Handlers.TruncateIsLongestPrefix | request-invoice/requestinvoice.py:50 | every prefix of at most 640 characters is a prefix of the truncation |
| Handlers.QueryDescription | request-invoice/requestinvoice.py:45-50 | an absent comment becomes the empty string; a present one becomes its first min(length, 640) characters |
| Handlers.QueryFormCall | request-invoice/requestinvoice.py:42-52 | the query form fails with InvalidAmount exactly when the amount did not parse; otherwise it asks for the amount unscaled, with a prefixed label carrying the token and the normalised comment |
| Handlers.PayResponse | request-invoice/requestinvoice.py:54 | the reduced response has exactly the keys pr and routes: the bolt11 value and an empty list |
| Handlers.PayRequest | request-invoice/requestinvoice.py:40-54 | a missing amount fails with InvalidAmount; with a parsed amount, an RPC error becomes UpstreamFailure with its message, an invoice object carrying bolt11 gives exactly the reduced response built from that field, and any other result fails with NoBolt11; a success arises only in the bolt11 case |
| Handlers.InvalidAmountCallsNothing | request-invoice/requestinvoice.py:42 | an unparsed amount gives InvalidAmount whatever the RPC would do, so the RPC is not consulted |
| Handlers.PayRequestForwards | request-invoice/requestinvoice.py:41-54 | for any invoice object carrying bolt11, whatever its other fields, the response is exactly {pr: invoice['bolt11'], routes: []} |
| Handlers.LongCommentTruncated | request-invoice/requestinvoice.py:45-50 | a 1000-character comment reaches the RPC as exactly its first 640 characters |

## Left out

- HTTP serving and threading. The `worker` function, Flask routing, the Tornado server and IO loop, the asyncio loop and `threading.Thread` (lines 57-69, 76-80) are I/O and concurrency. A handle records only the (address, port) its worker binds.
- Thread start failure. If `p.start()` raised after `jobs[port] = p` (lines 79-80), the entry would stay registered. Thread creation is not modelled, so start always succeeds on a vacant port.
- Control.InvoiceServer: the command is modelled as an optional string. The plugin command can receive any JSON value. A list or object argument raises TypeError at the membership test on line 106, so start, stop and status can raise in that case too.
- Concurrency. The source takes no lock, so the registry is modelled as sequential calls. Races between concurrent control commands are not modelled.
- Rate limiting. The limiter (lines 20-24, 30, 38) is a third-party library whose algorithm is not visible, so no quota is modelled. Note that the per-route decorators sit outside `app.route`. Whether the 20-per-minute route limit reaches the registered views therefore depends on that library and is not claimed.
- Label uniqueness. This rests on `uuid.uuid4()` randomness. The token is a parameter. The model proves only the fixed prefix, and that distinct tokens give distinct labels.
- Amount parsing. Python `int()` and Flask's `<int:...>` converter are not modelled. The query form takes the amount as `Option<int>`. The path form takes a `nat`, because the unsigned converter only routes digit strings to the handler. Any other segment gets Flask's not-found response and never reaches the handler.
- Character counting. Python slices strings by code point. The model counts Dafny `char`s.
- Responses. JSON serialisation, and the HTTP status of a raised RPC error or missing `bolt11`, are Flask's.
- Secret key. The `SECRET_KEY` environment read (lines 63-65) has no effect on the core.
- Plugin wiring. Option registration and defaults, reading the port with `int(...)`, `plugin.run()` and logging (lines 139-160) are plumbing. Init is modelled as the one `start_server` it performs.

## Findings

| source | as written | input that shows it | evidently intended | confidence | as-written member | corrected member |
|---|---|---|---|---|---|---|
| request-invoice/requestinvoice.py:85 | `jobs[port].terminate()` is called on a `threading.Thread`. That class has no `terminate`, so the call raises AttributeError and the `del` on line 86 never runs | "stop" or "restart" while the server started by `init` is running: the reply is "Could not stop server on port 8809: 'Thread' object has no attribute 'terminate'", or a raised error, and the port stays registered | signal the serving loop to shut down and close the listening socket, then remove the entry | high, not executed | Registry.ThreadStopNeverSucceeds | Registry.CooperativeStopRemovesPort |

Every registry operation takes the termination behaviour as a parameter:
- `Registry.ThreadTerminate` is the code as written. `Control.ThreadStopReply` gives the exact reply of "stop", and `Control.ThreadListenerNeverStops` shows that a registered port can then never be freed.
- `Registry.CooperativeShutdown` is the corrected behaviour. With it, stop and restart succeed on a running port (`Registry.CooperativeStopRemovesPort`, `Control.CooperativeRestartSucceeds`).
