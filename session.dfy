/**
 * The conversational session of one remote party: a key/value record that is
 * persisted after every change, the name of the current state, and the
 * active thread (sub-dialog). The ghost `trace` records, in order, what the
 * session does to the outside world: thread hook calls, the record handed to
 * storage by each flush, RPC requests, callback errors and outbound messages.
 */
module BotSession {
  import opened Wrappers
  import opened Values
  import Hex
  import Transaction

  /** A thread handler from the bot's registry; its `open`/`close` hooks are external code. */
  datatype ThreadRef = ThreadRef(id: nat)

  /** The user profile from the identity service (`{}` for the anonymous session). */
  datatype User = User(paymentAddress: Val, tokenId: Val)

  datatype Config = Config(paymentAddress: string)

  /** Outbound messages; only the payment request is built by this class itself. */
  datatype Message =
    | PaymentRequest(body: string, value: string, destinationAddress: string)
    | OtherMessage(id: nat)

  datatype Event =
    | Opened(thread: ThreadRef)
    | Closed(thread: ThreadRef)
    | Flushed(record: Fields)
    | RpcIssued(params: Fields)
    | CallbackCalled(error: string)
    | Sent(to: string, message: Message)

  /** The reserved address of a session without a reply channel. */
  const Anonymous: string := "anonymous"

  /** How a nullable name is stored in the record. */
  function NameVal(name: Option<string>): Val {
    match name
    case None => Null
    case Some(n) => Str(n)
  }

  /** `this.thread.close(this)` when a thread is open, nothing otherwise. */
  function CloseHook(thread: Option<ThreadRef>): seq<Event> {
    if thread.Some? then [Closed(thread.value)] else []
  }

  /** What a normalisation outcome shows to the outside: the RPC request, or the callback's error. */
  function OutcomeEvents(out: Transaction.Outcome): seq<Event> {
    match out
    case Submit(params) => [RpcIssued(params)]
    case Reject(error, reported) => if reported then [CallbackCalled(error)] else []
  }

  class Session {
    const address: string
    const threads: map<string, ThreadRef>
    const config: Config
    const user: User
    var data: Fields
    var state: Option<string>
    var thread: Option<ThreadRef>
    ghost var trace: seq<Event>

    /** The record still holds the session's own address. */
    ghost predicate AddressKept()
      reads this
    {
      "address" in data && data["address"] == Str(address)
    }

    /** `_state` mirrors `state` (loosely null when there is no state). */
    ghost predicate StateMirrored()
      reads this
    {
      && (state.None? ==> Nullish(Get("_state")))
      && (state.Some? ==> Get("_state") == Str(state.value))
    }

    /** `_thread` names the active thread in the registry (loosely null when none is open). */
    ghost predicate ThreadMirrored()
      reads this
    {
      && (thread.None? ==> Nullish(Get("_thread")))
      && (thread.Some? ==>
            var name := Get("_thread");
            name.Str? && name.s in threads && threads[name.s] == thread.value)
    }

    /**
     * A new session for `address` (falsy means anonymous). The identity lookup
     * that `load` performs is given as `user`.
     */
    constructor(address: Option<string>, threads: map<string, ThreadRef>, config: Config, user: User)
      ensures this.address == if address.Some? && address.value != "" then address.value else Anonymous
      ensures this.threads == threads && this.config == config && this.user == user
      ensures data == map["address" := Str(this.address)]
      ensures state.None? && thread.None? && trace == []
      ensures AddressKept() && StateMirrored() && ThreadMirrored()
    {
      this.address := if address.Some? && address.value != "" then address.value else Anonymous;
      this.threads := threads;
      this.config := config;
      this.user := user;
      data := map["address" := Str(this.address)];
      state := None;
      thread := None;
      trace := [];
    }

    /** `get(key)`: "tokenId" is the session's address; any other key reads the record. */
    function Get(key: string): (v: Val)
      reads this
      ensures key == "tokenId" ==> v == Str(address)
      ensures key != "tokenId" && key in data ==> v == data[key]
      ensures key != "tokenId" && key !in data ==> v == Undefined
    {
      if key == "tokenId" then Str(address) else Lookup(data, key)
    }

    /** Stamps the record with the time and hands it to storage. */
    method Flush(now: nat)
      modifies this`data, this`trace
      ensures data == old(data)["timestamp" := Num(now)]
      ensures trace == old(trace) + [Flushed(data)]
      ensures old(AddressKept()) ==> AddressKept()
      ensures old(StateMirrored()) ==> StateMirrored()
      ensures old(ThreadMirrored()) ==> ThreadMirrored()
    {
      data := data["timestamp" := Num(now)];
      trace := trace + [Flushed(data)];
    }

    /** `set(key, value)`: store, then flush. */
    method Set(key: string, value: Val, now: nat)
      modifies this`data, this`trace
      ensures data == old(data)[key := value]["timestamp" := Num(now)]
      ensures trace == old(trace) + [Flushed(data)]
      ensures key != "tokenId" && key != "timestamp" ==> Get(key) == value
      ensures forall k | k != key && k != "timestamp" :: Get(k) == old(Get(k))
      ensures key != "address" && old(AddressKept()) ==> AddressKept()
      ensures key != "_state" && old(StateMirrored()) ==> StateMirrored()
      ensures key != "_thread" && old(ThreadMirrored()) ==> ThreadMirrored()
    {
      data := data[key := value];
      Flush(now);
    }

    /** `setState(name)`: the field and its mirror in the record. */
    method SetState(name: Option<string>, now: nat)
      modifies this`state, this`data, this`trace
      ensures state == name
      ensures data == old(data)["_state" := NameVal(name)]["timestamp" := Num(now)]
      ensures trace == old(trace) + [Flushed(data)]
      ensures StateMirrored()
      ensures old(AddressKept()) ==> AddressKept()
      ensures old(ThreadMirrored()) ==> ThreadMirrored()
    {
      state := name;
      Set("_state", NameVal(name), now);
    }

    /**
     * `closeThread()`: the close hook runs only if a thread is open; then the
     * thread and the state are cleared, each write flushed.
     */
    method CloseThread(now: nat)
      modifies this`thread, this`state, this`data, this`trace
      ensures thread.None? && state.None?
      ensures data == old(data)["_thread" := Null]["_state" := Null]["timestamp" := Num(now)]
      ensures Get("_thread") == Null && Get("_state") == Null
      ensures trace == old(trace) + CloseHook(old(thread))
                       + [Flushed(old(data)["_thread" := Null]["timestamp" := Num(now)]), Flushed(data)]
      ensures old(thread).None? ==> forall i | |old(trace)| <= i < |trace| :: !trace[i].Closed?
      ensures StateMirrored() && ThreadMirrored()
      ensures old(AddressKept()) ==> AddressKept()
    {
      if thread.Some? {
        trace := trace + [Closed(thread.value)];
      }
      thread := None;
      Set("_thread", Null, now);
      SetState(None, now);
    }

    /**
     * `openThread(name)`: closes the current thread first, records the new
     * name, then runs the new thread's open hook.
     */
    method OpenThread(name: string, now: nat)
      requires name in threads
      modifies this`thread, this`state, this`data, this`trace
      ensures thread == Some(threads[name]) && state.None?
      ensures data == old(data)["_state" := Null]["_thread" := Str(name)]["timestamp" := Num(now)]
      ensures Get("_thread") == Str(name) && Get("_state") == Null
      ensures var d1 := old(data)["_thread" := Null]["timestamp" := Num(now)];
              var d2 := d1["_state" := Null];
              trace == old(trace) + CloseHook(old(thread)) + [Flushed(d1), Flushed(d2), Flushed(data), Opened(threads[name])]
      ensures old(thread).Some? ==> trace[|old(trace)|] == Closed(old(thread).value)
      ensures trace[|trace| - 1] == Opened(threads[name])
      ensures StateMirrored() && ThreadMirrored()
      ensures old(AddressKept()) ==> AddressKept()
    {
      ghost var d1 := data["_thread" := Null]["timestamp" := Num(now)];
      CloseThread(now);
      assert data == d1["_state" := Null];
      Set("_thread", Str(name), now);
      thread := Some(threads[name]);
      trace := trace + [Opened(thread.value)];
    }

    /**
     * `openThread(name)` as written, for any name: when `name` is not
     * registered, the hook call on `undefined` throws after the previous thread
     * was closed and `_thread: name` was already flushed (`crashed`).
     */
    method OpenThreadAsWritten(name: string, now: nat) returns (crashed: bool)
      modifies this`thread, this`state, this`data, this`trace
      ensures crashed <==> name !in threads
      ensures Get("_thread") == Str(name) && state.None?
      ensures data == old(data)["_state" := Null]["_thread" := Str(name)]["timestamp" := Num(now)]
      ensures var d1 := old(data)["_thread" := Null]["timestamp" := Num(now)];
              var d2 := d1["_state" := Null];
              trace == old(trace) + CloseHook(old(thread)) + [Flushed(d1), Flushed(d2), Flushed(data)]
                       + if crashed then [] else [Opened(threads[name])]
      ensures !crashed ==> thread == Some(threads[name])
      ensures crashed ==> thread.None? && !ThreadMirrored()
    {
      ghost var d1 := data["_thread" := Null]["timestamp" := Num(now)];
      CloseThread(now);
      assert data == d1["_state" := Null];
      Set("_thread", Str(name), now);
      if name !in threads {
        return true;
      }
      thread := Some(threads[name]);
      trace := trace + [Opened(thread.value)];
      return false;
    }

    /**
     * `openThread(name)` with the lookup done first: an unregistered name is
     * reported (`found` is false) and the session is left exactly as it was.
     */
    method TryOpenThread(name: string, now: nat) returns (found: bool)
      modifies this`thread, this`state, this`data, this`trace
      ensures found <==> name in threads
      ensures !found ==> thread == old(thread) && state == old(state) && data == old(data) && trace == old(trace)
      ensures found ==> thread == Some(threads[name]) && state.None?
      ensures found ==> data == old(data)["_state" := Null]["_thread" := Str(name)]["timestamp" := Num(now)]
      ensures found ==> Get("_thread") == Str(name) && Get("_state") == Null
      ensures found ==>
                var d1 := old(data)["_thread" := Null]["timestamp" := Num(now)];
                var d2 := d1["_state" := Null];
                trace == old(trace) + CloseHook(old(thread)) + [Flushed(d1), Flushed(d2), Flushed(data), Opened(threads[name])]
      ensures found && old(thread).Some? ==> trace[|old(trace)|] == Closed(old(thread).value)
      ensures found ==> trace[|trace| - 1] == Opened(threads[name])
      ensures old(ThreadMirrored()) ==> ThreadMirrored()
      ensures old(StateMirrored()) ==> StateMirrored()
    {
      found := name in threads;
      if found {
        OpenThread(name, now);
      }
    }

    /**
     * `reset()`: closes the thread, clears the state, and starts the record
     * afresh with just the address (and the flush's timestamp).
     */
    method Reset(now: nat)
      modifies this`thread, this`state, this`data, this`trace
      ensures thread.None? && state.None?
      ensures data == map["address" := Str(address), "timestamp" := Num(now)]
      ensures data.Keys == {"address", "timestamp"}
      ensures var d1 := old(data)["_thread" := Null]["timestamp" := Num(now)];
              var d2 := d1["_state" := Null];
              trace == old(trace) + CloseHook(old(thread)) + [Flushed(d1), Flushed(d2), Flushed(d2), Flushed(data)]
      ensures AddressKept() && StateMirrored() && ThreadMirrored()
    {
      ghost var d1 := data["_thread" := Null]["timestamp" := Num(now)];
      CloseThread(now);
      assert data == d1["_state" := Null];
      SetState(None, now);
      assert data == d1["_state" := Null];
      data := map["address" := Str(address)];
      Flush(now);
    }

    /** `reply(message)`: delivered unless the session is anonymous. */
    method Reply(message: Message) returns (delivered: bool)
      modifies this`trace
      ensures delivered <==> address != Anonymous
      ensures trace == old(trace) + if delivered then [Sent(address, message)] else []
    {
      delivered := address != Anonymous;
      if delivered {
        trace := trace + [Sent(address, message)];
      }
    }

    /**
     * `sendWei(value, options, callback)`: normalises the options (in place
     * when an object was passed) and issues the RPC request, or reports the
     * error to the callback and issues nothing.
     */
    method SendWei(value: Val, arg: Transaction.OptionsArg<Transaction.OptionsObject>, hasCallback: bool)
      modifies this`trace, if arg.ObjectArg? then {arg.obj} else {}
      ensures var out := Transaction.Normalize(value, old(Transaction.View(arg)), hasCallback, user.paymentAddress);
              && trace == old(trace) + OutcomeEvents(out)
              && (arg.ObjectArg? && out.Submit? ==> arg.obj.entries == out.params)
              && (arg.ObjectArg? && out.Reject? ==> arg.obj.entries == old(arg.obj.entries))
    {
      var callback := hasCallback;
      var o: Transaction.OptionsObject;
      if !callback && arg.FunctionArg? {
        callback := true;
        o := new Transaction.OptionsObject(map[]);
      } else if arg.StringArg? {
        o := new Transaction.OptionsObject(map["to" := Str(arg.s)]);
      } else if arg.FalsyArg? {
        o := new Transaction.OptionsObject(map[]);
      } else if !arg.ObjectArg? {
        if callback {
          trace := trace + [CallbackCalled(Transaction.InvalidOptions)];
        }
        return;
      } else {
        o := arg.obj;
      }
      if "to" !in o.entries {
        if !Truthy(user.paymentAddress) {
          if callback {
            trace := trace + [CallbackCalled(Transaction.NoPaymentAddress)];
          }
          return;
        }
        o.entries := o.entries["to" := user.paymentAddress];
      } else if !Truthy(o.entries["to"]) {
        o.entries := o.entries - {"to"};
      }
      o.entries := o.entries["value" := value];
      Transaction.EncodeNumericFields(o);
      if "data" in o.entries && o.entries["data"].Bytes? {
        o.entries := o.entries["data" := Str("0x" + Hex.BytesToHex(o.entries["data"].bytes))];
      }
      trace := trace + [RpcIssued(o.entries)];
    }

    /** `sendEth(value, …)`: the amount in wei, as "0x"-prefixed hex, goes to `sendWei`. */
    method SendEth(wei: nat, arg: Transaction.OptionsArg<Transaction.OptionsObject>, hasCallback: bool)
      modifies this`trace, if arg.ObjectArg? then {arg.obj} else {}
      ensures var out := Transaction.Normalize(Str("0x" + Hex.ToHex(wei)), old(Transaction.View(arg)), hasCallback, user.paymentAddress);
              && trace == old(trace) + OutcomeEvents(out)
              && (arg.ObjectArg? && out.Submit? ==> arg.obj.entries == out.params)
              && (arg.ObjectArg? && out.Reject? ==> arg.obj.entries == old(arg.obj.entries))
    {
      SendWei(Str("0x" + Hex.ToHex(wei)), arg, hasCallback);
    }

    /**
     * `requestEth(value, message)`: asks the user for `wei`, to be paid to the
     * configured address; nothing is sent to a user without a token id.
     */
    method RequestEth(wei: nat, body: string)
      modifies this`trace
      ensures !Truthy(user.tokenId) ==> trace == old(trace)
      ensures Truthy(user.tokenId) ==>
                trace == old(trace) + if address != Anonymous
                                      then [Sent(address, PaymentRequest(body, "0x" + Hex.ToHex(wei), config.paymentAddress))]
                                      else []
    {
      if !Truthy(user.tokenId) {
        return;
      }
      var value := "0x" + Hex.ToHex(wei);
      var _ := Reply(PaymentRequest(body, value, config.paymentAddress));
    }
  }
}
