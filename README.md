# Bot session engine — a Dafny model

This project models the `Session` class of a messaging bot that keeps one
conversation per remote address and can send and request ether. It covers three parts:

- **The conversation record and its state machine.** A session holds a key/value record (`data`), the name of the
  current state and the active thread (a registered sub-dialog). They change
  only through `get`, `set`, `setState`, `openThread`, `closeThread` and `reset`. Every
  write flushes the record to storage with a fresh timestamp. The reserved keys
  `_state` and `_thread` mirror the two fields.
- **Transaction-request normalisation in `sendWei`.** It accepts a
  duck-typed options argument and either reports an error to the callback or
  issues an RPC request. Before issuing, it resolves the recipient and
  re-encodes the numeric fields as `"0x"` + lowercase hex.
- **Argument resolution in `balance`.** It decides which address is
  queried, in which denomination or currency, and whether the native-unit
  branch or the fiat branch is taken.

Layout:

| file | module | contents |
|---|---|---|
| `wrappers.dfy` | `Wrappers` | `Option` |
| `values.dfy` | `Values` | JavaScript values (`Val`), truthiness, property lookup |
| `hex.dfy` | `Hex` | `Number#toString(16)` and `Buffer#toString("hex")` with their inverses |
| `balance.dfy` | `Balance` | the argument resolution of `balance` |
| `transaction.dfy` | `Transaction` | the `sendWei` normalisation as functions, and the in-place conversion loop |
| `session.dfy` | `BotSession` | the `Session` class |

The class has the source's fields: `data: map<string, Val>`,
`state: Option<string>` and `thread: Option<ThreadRef>` (a handler from the
registry `threads: map<string, ThreadRef>`). A ghost `trace` records every effect
the session has on the outside world, in order:

- the `close` and `open` hook calls;
- the record each `flush` hands to storage;
- the RPC request of `sendWei`;
- errors reported to a callback;
- messages sent by `reply`.

Collaborators are abstracted as follows:

- **Clock.** `now` (Unix seconds) is a parameter of every method that flushes; all flushes of one call use that one value (see "## Left out").
- **User profile.** `load` would fetch it; here it is a constructor parameter (`User`).
- **Options object.** `sendWei` receives `OptionsArg`, a tagged variant: function, string, falsy value, object, or anything else.
  - An object is an `OptionsObject` that the method updates in place, as the source does.
  - `Transaction.Normalize` specifies the same computation on values.
- **Denominations.** The unit converter's set of names is a parameter `unitMap`.

Where the code and its design description differ, the model follows the code:

- `reset` leaves `timestamp` in the record beside `address`, because the final flush re-adds it.
- `_state`/`_thread` are only loosely mirrored: after construction or `reset` they are absent, and `set` can overwrite them. `StateMirrored`/`ThreadMirrored` therefore accept an absent key or `null` for a null field. `set` preserves these predicates for every other key.
- A function in the options slot next to a callback is rejected as invalid, like any non-object.
- Every falsy options value (not only `undefined`) means `{}`.
- The empty string as options becomes `{to: ""}`, so the request has no recipient.
- `openThread` with an unregistered name does not fail silently: it throws after it has already persisted the name (see Findings).

## Model

| member | source | states |
|---|---|---|
| `BotSession.Session.constructor` | src/lib/Session.js:14-27 | a falsy address becomes "anonymous"; the record is `{address}`; no state, no thread, nothing done yet; the address and mirror invariants hold |
| `BotSession.Session.Get` | src/lib/Session.js:29-34 | "tokenId" always yields the session address; any other key yields its stored value, `undefined` when absent |
| `BotSession.Session.Flush` | src/lib/Session.js:200-203 | only `timestamp` changes (to `now`); the whole record is handed to storage; the invariants are kept |
| `BotSession.Session.Set` | src/lib/Session.js:36-39 | afterwards `get(key)` is the value for any key but "tokenId"/"timestamp"; no other key changes; the record is flushed; the mirrors and the address survive unless their own key is written |
| `BotSession.Session.SetState` | src/lib/Session.js:41-44 | `state == name` and `_state` holds it; one flush; the thread mirror and the address are kept |
| `BotSession.Session.CloseThread` | src/lib/Session.js:53-60 | ends with no thread, no state, `_thread` and `_state` null; the close hook runs first and only if a thread was open (so a second call runs none); then two flushes |
| `BotSession.Session.OpenThread` | src/lib/Session.js:46-51 | for a registered name: the old thread's close hook is the first new event and the new thread's open hook the last; `thread == threads[name]`, `_thread == name`, state cleared |
| `BotSession.Session.OpenThreadAsWritten` | src/lib/Session.js:46-51 | for any name: an unregistered name crashes after closing the old thread and flushing `_thread: name`, leaving a record that names no thread |
| `BotSession.Session.TryOpenThread` | src/lib/Session.js:46-51 | corrected: an unregistered name is reported and changes nothing; a registered one ends with the same record, cleared state, `thread == threads[name]` and the same trace as `OpenThread` (old close hook first, new open hook last); the mirrors are preserved either way |
| `BotSession.Session.Reset` | src/lib/Session.js:62-69 | no thread, no state, and the record holds exactly `address` (the session's) and `timestamp`; the close hook and four flushes in order |
| `BotSession.Session.Reply` | src/lib/Session.js:71-77 | delivered exactly when the session is not anonymous; only then a message is sent |
| `BotSession.Session.SendWei` | src/lib/Session.js:112-163 | the new trace is the old one plus the outcome of `Normalize`: the RPC request with the normalised params, or the callback's error, or nothing; a passed options object ends holding the params, and is untouched on error |
| `BotSession.Session.SendEth` | src/lib/Session.js:107-110 | `sendWei` with the wei amount as "0x" + hex |
| `BotSession.Session.RequestEth` | src/lib/Session.js:165-176 | nothing happens without a truthy token id; otherwise a payment request for "0x" + hex(wei) to the configured address is sent, unless anonymous |
| `Transaction.ResolveShape` | src/lib/Session.js:113-123 | invalid exactly for a non-object, non-falsy, non-string value or a function next to a callback; a function alone becomes the callback |
| `Transaction.ResolveRecipient` | src/lib/Session.js:124-135 | fails exactly when `to` is missing and the payment address is falsy; other keys are kept; `to` is present afterwards iff it was missing or truthy, and is then truthy |
| `Transaction.HexField` | src/lib/Session.js:139-143 | a number becomes "0x" followed by canonical lowercase digits whose value is that number; any other value is unchanged |
| `Transaction.HexFields` | src/lib/Session.js:139-143 | the conversion keeps the object's keys |
| `Transaction.EncodeData` | src/lib/Session.js:144-146 | only `data` may change; the keys are kept |
| `Transaction.Normalize` | src/lib/Session.js:112-147 | every rejection is "Invalid options" or the missing-payment-address error |
| `Transaction.EncodeNumericFields` | src/lib/Session.js:139-143 | the in-place loop leaves the object equal to `HexFields` of its old contents over `value`, `gasPrice`, `gas`, `nonce` |
| `Transaction.ShapeShorthands` | src/lib/Session.js:113-119 | `(v, callback)` acts as `(v, {}, callback)`, a string `s` as `{to: s}`, a falsy value as `{}` |
| `Transaction.InvalidShapes` | src/lib/Session.js:120-123 | other values are rejected as "Invalid options", reported only if there is a callback, and no request is made |
| `Transaction.EmptyAddressStringMeansNoRecipient` | src/lib/Session.js:116-117 | an empty address string yields a request without `to` |
| `Transaction.MissingRecipient` | src/lib/Session.js:126-132 | with no `to` key, the request goes to the user's payment address, or nothing is sent when there is none |
| `Transaction.GivenRecipient` | src/lib/Session.js:133-135 | an explicit `to` is kept when truthy, removed when falsy, and the request is issued |
| `Transaction.SubmittedFields` | src/lib/Session.js:136-146 | `value` is the caller's value hex-encoded; the three gas fields are the options' own, hex-encoded if numeric and passed through otherwise; data bytes become hex text; every other key is unchanged |
| `Transaction.GasExample` | src/lib/Session.js:139-143 | gas 21000 is sent as "0x5208" |
| `Transaction.EncodingIsFixed` | src/lib/Session.js:139-146 | the hex and data steps leave their own output unchanged |
| `Transaction.NormalizeIdempotent` | src/lib/Session.js:112-147 | an issued request with a recipient, passed back as options with its own value, is issued unchanged |
| `Balance.Resolve` | src/lib/Session.js:79-93 | the address is the supplied one exactly when it is truthy and starts with "0x", else the configured one; a non-"0x" address becomes the fiat type ("ether" if it spells "eth"); otherwise a given fiat type is kept, and a missing one or "eth" in any case becomes "ether"; the fiat type is never empty; the native branch is taken iff its lowercase form is a unit name, keyed lowercase, the fiat branch keyed uppercase |
| `Balance.DefaultIsEther` | src/lib/Session.js:90-95 | with no fiat type the query is for "ether" on the native branch |
| `Balance.EthInAnyCase` | src/lib/Session.js:80-92 | "eth" in any letter case, in either slot, means "ether" at the configured address |
| `Balance.FiatInAddressSlot` | src/lib/Session.js:80-85 | `balance("SGD")` queries the configured address for currency "SGD" |
| `Balance.ExplicitAddress` | src/lib/Session.js:80-88 | `balance("0xDEF", "USD")` queries "0xDEF" for "USD" |
| `Balance.BranchIsCaseInsensitive` | src/lib/Session.js:90-100 | fiat types differing only in case select the same branch with the same key |
| `Hex.ToHex` | src/lib/Session.js:141 | `toString(16)` yields lowercase hex digits with no leading zero, and "0" exactly for zero |
| `Hex.FromHexToHex` | src/lib/Session.js:141 | the digits denote the number encoded |
| `Hex.ToHexFromHex` | src/lib/Session.js:141 | every canonical digit string is the encoding of its value |
| `Hex.ToHexGasExample` | src/lib/Session.js:141 | 21000 is "5208" |
| `Hex.BytesToHex` | src/lib/Session.js:145 | two hex digits per byte |
| `Hex.HexToBytesToHex` | src/lib/Session.js:145 | decoding the hex text gives the bytes back |
| `Hex.BytesToHexFromHex` | src/lib/Session.js:145 | every even-length digit string is the hex text of the bytes it decodes to |

## Left out

- `load`: its storage read and identity lookup are asynchronous I/O. The user profile is a constructor parameter. Restoring `thread`/`state` from a stored record is not modelled.
- `flush`'s actual storage write and the wall clock. A flush is a `Flushed(record)` event carrying a snapshot, and the time is the parameter `now`.
- The `json` getter: `JSON.stringify` is a library call.
- `balance`'s balance fetch, rate fetch and decimal conversion: these are network calls and decimal arithmetic. Only the argument resolution is modelled.
- `unit.toWei`: its decimal scaling module is not part of this model. `SendEth` and `RequestEth` take the amount in wei.
- The RPC client, the transport, and the Payment / PaymentRequest message encoding are external. So is the result callback of the RPC: its payment notification depends on an asynchronous result. The RPC call is the `RpcIssued(params)` event.
- Logging of the anonymous-reply and missing-token-id cases.
- Thread hooks are external code that receives the session. The model records each call and assumes the hook does not change the session.
- The thread registry of the bot is a constant of the session; changes to it during a session are not modelled.
- Concurrency between sessions of one address, and the fact that the persisted object is the live record: each flush is treated as an atomic snapshot.
- The clock is read once per call: `flush` reads the wall clock each time, so the several flushes of `closeThread`, `openThread` or `reset` may carry different seconds. The model stamps them all with `now`, which is why `Reset` records two equal snapshots in a row.
- The record, the thread registry and the unit map are dictionaries without a prototype. In the source they are plain JavaScript objects: a key such as `toString` or `constructor` reads an inherited value instead of `undefined` (in `get`, in `bot.threads[name]`, in `in unit.unitMap`), and `set("__proto__", v)` stores nothing. The model's `Get`, `Set`, `OpenThread` and `Balance.Resolve` treat these keys like any other.
- JavaScript numbers are non-negative integers: negative, fractional, NaN and values past 2^53 are not modelled, and `Math.floor` is the identity.
- `Balance.Resolve`: `toLowerCase`/`toUpperCase` are modelled on ASCII letters only.
- `BotSession.Session.OpenThread`: requires a registered name. The unregistered case is `OpenThreadAsWritten`.

## Findings

| source | as written | input that shows it | evidently intended | confidence | as-written member | corrected member |
|---|---|---|---|---|---|---|
| src/lib/Session.js:46-51 | `openThread` closes the current thread and flushes `_thread: name` before looking `name` up, then calls `open` on the result of the lookup | `openThread("x")` when no thread is registered as "x": `undefined.open` throws after the record already names "x" and the previous thread was closed | report the unknown name before changing anything | high, not executed | `BotSession.Session.OpenThreadAsWritten` | `BotSession.Session.TryOpenThread` |
