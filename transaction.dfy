/**
 * How `Session.sendWei(value, options, callback)` turns its duck-typed
 * arguments into the parameters of an `eth_sendTransaction` request, or into
 * an error reported to the callback. The pure functions specify the
 * normalisation; `EncodeNumericFields` is the in-place loop over the options
 * object, proved against `HexFields`.
 */
module Transaction {
  import opened Wrappers
  import opened Values
  import Hex

  /**
   * What was passed in the `options` slot: a function (possibly the callback),
   * a recipient address string, a falsy value, an object (`O` is its contents
   * in the specification and the mutable object in the method), or anything else.
   */
  datatype OptionsArg<O> = FunctionArg | StringArg(s: string) | FalsyArg | ObjectArg(obj: O) | OtherArg

  /** A JavaScript options object that `sendWei` updates in place, visible to its caller. */
  class OptionsObject {
    var entries: Fields

    constructor(entries: Fields)
      ensures this.entries == entries
    {
      this.entries := entries;
    }
  }

  /** The contents of the options slot in the current heap. */
  function View(arg: OptionsArg<OptionsObject>): OptionsArg<Fields>
    reads if arg.ObjectArg? then {arg.obj} else {}
  {
    match arg
    case FunctionArg => FunctionArg
    case StringArg(s) => StringArg(s)
    case FalsyArg => FalsyArg
    case ObjectArg(obj) => ObjectArg(obj.entries)
    case OtherArg => OtherArg
  }

  const InvalidOptions: string := "Invalid options"
  const NoPaymentAddress: string := "Cannot send transactions to users with no payment address"

  /** The fields re-encoded as hex when they hold a number, in this order. */
  const NumericKeys: seq<string> := ["value", "gasPrice", "gas", "nonce"]

  /** Either the parameters handed to the RPC client, or an error passed to the callback when there is one. */
  datatype Outcome = Submit(params: Fields) | Reject(error: string, reported: bool)

  /** The options object and whether a callback is known, after the shape dispatch. */
  datatype Shaped = Shaped(options: Fields, hasCallback: bool)

  /** The dispatch on the type of `options`; `None` is the "Invalid options" case. */
  function ResolveShape(arg: OptionsArg<Fields>, hasCallback: bool): (r: Option<Shaped>)
    ensures r.None? <==> arg.OtherArg? || (arg.FunctionArg? && hasCallback)
    ensures r.Some? ==> r.value.hasCallback == (hasCallback || arg.FunctionArg?)
  {
    if !hasCallback && arg.FunctionArg? then Some(Shaped(map[], true))
    else if arg.StringArg? then Some(Shaped(map["to" := Str(arg.s)], hasCallback))
    else if arg.FalsyArg? then Some(Shaped(map[], hasCallback))
    else if !arg.ObjectArg? then None
    else Some(Shaped(arg.obj, hasCallback))
  }

  /**
   * Recipient resolution: a missing `to` is defaulted to the user's payment
   * address (`None` when that is falsy), a falsy `to` is deleted, any other is kept.
   */
  function ResolveRecipient(options: Fields, paymentAddress: Val): (r: Option<Fields>)
    ensures r.None? <==> "to" !in options && !Truthy(paymentAddress)
    ensures r.Some? ==> r.value.Keys - {"to"} == options.Keys - {"to"}
    ensures r.Some? ==> forall k | k in options && k != "to" :: k in r.value && r.value[k] == options[k]
    ensures r.Some? ==> ("to" in r.value <==> "to" !in options || Truthy(options["to"]))
    ensures r.Some? && "to" in r.value ==> Truthy(r.value["to"])
  {
    if "to" !in options then
      if !Truthy(paymentAddress) then None else Some(options["to" := paymentAddress])
    else if !Truthy(options["to"]) then Some(options - {"to"})
    else Some(options)
  }

  /** One step of the conversion loop: a number becomes "0x" and its lowercase hex digits. */
  function HexField(v: Val): (r: Val)
    ensures v.Num? ==> r.Str? && |r.s| > 2 && r.s[..2] == "0x"
                       && Hex.Canonical(r.s[2..]) && Hex.FromHex(r.s[2..]) == v.n
    ensures !v.Num? ==> r == v
  {
    if v.Num? then
      Hex.FromHexToHex(v.n);
      var digits := Hex.ToHex(v.n);
      assert ("0x" + digits)[2..] == digits;
      Str("0x" + digits)
    else v
  }

  /** The options after every key of `keys` present has gone through `HexField`. */
  function HexFields(options: Fields, keys: seq<string>): (r: Fields)
    ensures r.Keys == options.Keys
  {
    map k | k in options :: if k in keys then HexField(options[k]) else options[k]
  }

  /** A byte buffer under `data` becomes its "0x"-prefixed hex text. */
  function EncodeData(options: Fields): (r: Fields)
    ensures r.Keys == options.Keys
    ensures forall k | k in options && k != "data" :: r[k] == options[k]
  {
    if "data" in options && options["data"].Bytes? then
      options["data" := Str("0x" + Hex.BytesToHex(options["data"].bytes))]
    else options
  }

  /** The whole normalisation performed by `sendWei` before the RPC call. */
  function Normalize(value: Val, arg: OptionsArg<Fields>, hasCallback: bool, paymentAddress: Val): (r: Outcome)
    ensures r.Reject? ==> r.error == InvalidOptions || r.error == NoPaymentAddress
  {
    match ResolveShape(arg, hasCallback)
    case None => Reject(InvalidOptions, hasCallback)
    case Some(Shaped(options, cb)) =>
      match ResolveRecipient(options, paymentAddress)
      case None => Reject(NoPaymentAddress, cb)
      case Some(withTo) => Submit(EncodeData(HexFields(withTo["value" := value], NumericKeys)))
  }

  /**
   * The `forEach` over `NumericKeys`: each key present with a numeric value is
   * rewritten in place as hex; everything else in the object is left alone.
   */
  method EncodeNumericFields(o: OptionsObject)
    modifies o
    ensures o.entries == HexFields(old(o.entries), NumericKeys)
  {
    ghost var original := o.entries;
    for i := 0 to |NumericKeys|
      invariant o.entries == HexFields(original, NumericKeys[..i])
    {
      var key := NumericKeys[i];
      assert NumericKeys[..i + 1] == NumericKeys[..i] + [key];
      if key in o.entries && o.entries[key].Num? {
        o.entries := o.entries[key := Str("0x" + Hex.ToHex(o.entries[key].n))];
      }
    }
    assert NumericKeys[..|NumericKeys|] == NumericKeys;
  }

  /** The keys `sendWei` may add, remove or rewrite. */
  const TouchedKeys: set<string> := {"to", "value", "gasPrice", "gas", "nonce", "data"}

  /**
   * `sendWei(v, callback)` is `sendWei(v, {}, callback)`, `sendWei(v, addr)` is
   * `sendWei(v, {to: addr})`, and a falsy options value is `{}`.
   */
  lemma ShapeShorthands(value: Val, s: string, hasCallback: bool, paymentAddress: Val)
    ensures Normalize(value, FunctionArg, false, paymentAddress) == Normalize(value, ObjectArg(map[]), true, paymentAddress)
    ensures Normalize(value, StringArg(s), hasCallback, paymentAddress)
         == Normalize(value, ObjectArg(map["to" := Str(s)]), hasCallback, paymentAddress)
    ensures Normalize(value, FalsyArg, hasCallback, paymentAddress)
         == Normalize(value, ObjectArg(map[]), hasCallback, paymentAddress)
  {
  }

  /** `sendWei(v, "")`: the empty address string is an explicit falsy `to`, so the request has no recipient. */
  lemma EmptyAddressStringMeansNoRecipient(value: Val, hasCallback: bool, paymentAddress: Val)
    ensures var r := Normalize(value, StringArg(""), hasCallback, paymentAddress);
            r.Submit? && "to" !in r.params
  {
    GivenRecipient(value, map["to" := Str("")], hasCallback, paymentAddress);
  }

  /** Any other options value, or a function next to a callback, is rejected as invalid. */
  lemma InvalidShapes(value: Val, arg: OptionsArg<Fields>, hasCallback: bool, paymentAddress: Val)
    requires arg.OtherArg? || (arg.FunctionArg? && hasCallback)
    ensures Normalize(value, arg, hasCallback, paymentAddress) == Reject(InvalidOptions, hasCallback)
  {
  }

  /** Without a `to` key the user's payment address is the recipient; without one, nothing is sent. */
  lemma MissingRecipient(value: Val, options: Fields, hasCallback: bool, paymentAddress: Val)
    requires "to" !in options
    ensures !Truthy(paymentAddress) ==>
              Normalize(value, ObjectArg(options), hasCallback, paymentAddress) == Reject(NoPaymentAddress, hasCallback)
    ensures Truthy(paymentAddress) ==>
              var r := Normalize(value, ObjectArg(options), hasCallback, paymentAddress);
              r.Submit? && "to" in r.params && r.params["to"] == paymentAddress
  {
  }

  /** An explicit `to` is kept when truthy and removed when falsy; the request is always issued. */
  lemma GivenRecipient(value: Val, options: Fields, hasCallback: bool, paymentAddress: Val)
    requires "to" in options
    ensures var r := Normalize(value, ObjectArg(options), hasCallback, paymentAddress);
            && r.Submit?
            && (Truthy(options["to"]) ==> "to" in r.params && r.params["to"] == options["to"])
            && (!Truthy(options["to"]) ==> "to" !in r.params)
  {
  }

  /**
   * In an issued request, `value` is the caller's value and the gas fields the
   * options' own, each passed through `HexField`; `data` bytes become hex text;
   * every key `sendWei` does not touch is unchanged.
   */
  lemma SubmittedFields(value: Val, options: Fields, hasCallback: bool, paymentAddress: Val)
    requires Normalize(value, ObjectArg(options), hasCallback, paymentAddress).Submit?
    ensures var p := Normalize(value, ObjectArg(options), hasCallback, paymentAddress).params;
            && "value" in p && p["value"] == HexField(value)
            && (forall k | k in {"gasPrice", "gas", "nonce"} ::
                  (k in p <==> k in options) && (k in options ==> p[k] == HexField(options[k])))
            && ("data" in p <==> "data" in options)
            && ("data" in options && options["data"].Bytes? ==>
                  p["data"] == Str("0x" + Hex.BytesToHex(options["data"].bytes)))
            && ("data" in options && !options["data"].Bytes? ==> p["data"] == options["data"])
            && (forall k | k !in TouchedKeys :: (k in p <==> k in options) && (k in p ==> p[k] == options[k]))
  {
    var withTo := ResolveRecipient(options, paymentAddress).value;
    var encoded := HexFields(withTo["value" := value], NumericKeys);
    assert Normalize(value, ObjectArg(options), hasCallback, paymentAddress).params == EncodeData(encoded);
    assert "value" in NumericKeys && "gasPrice" in NumericKeys && "gas" in NumericKeys && "nonce" in NumericKeys;
    assert "data" !in NumericKeys;
    forall k | k !in TouchedKeys
      ensures k !in NumericKeys
    {
    }
  }

  /** `sendWei(v, {gas: 21000})` asks for gas "0x5208". */
  lemma GasExample(value: Val, paymentAddress: Val)
    ensures var r := Normalize(value, ObjectArg(map["to" := Str("0xabc"), "gas" := Num(21000)]), true, paymentAddress);
            r.Submit? && r.params["gas"] == Str("0x5208")
  {
    Hex.ToHexGasExample();
    SubmittedFields(value, map["to" := Str("0xabc"), "gas" := Num(21000)], true, paymentAddress);
  }

  /** The last two steps of the normalisation leave their own output unchanged. */
  lemma EncodingIsFixed(m: Fields)
    ensures var p := EncodeData(HexFields(m, NumericKeys));
            HexFields(p, NumericKeys) == p && EncodeData(p) == p
  {
    var encoded := HexFields(m, NumericKeys);
    var p := EncodeData(encoded);
    forall k | k in p && k in NumericKeys
      ensures !p[k].Num?
    {
      assert k != "data";
      assert p[k] == encoded[k] == HexField(m[k]);
    }
    assert HexFields(p, NumericKeys) == p;
    assert "data" in p ==> !p["data"].Bytes?;
  }

  /** Feeding an issued request that keeps a recipient back through `sendWei` issues it unchanged. */
  lemma NormalizeIdempotent(value: Val, arg: OptionsArg<Fields>, hasCallback: bool, paymentAddress: Val)
    requires Normalize(value, arg, hasCallback, paymentAddress).Submit?
    requires "to" in Normalize(value, arg, hasCallback, paymentAddress).params
    ensures var p := Normalize(value, arg, hasCallback, paymentAddress).params;
            Normalize(p["value"], ObjectArg(p), hasCallback, paymentAddress) == Submit(p)
  {
    var shaped := ResolveShape(arg, hasCallback).value;
    var withTo := ResolveRecipient(shaped.options, paymentAddress).value;
    var encoded := HexFields(withTo["value" := value], NumericKeys);
    var p := EncodeData(encoded);
    assert p["to"] == encoded["to"] == withTo["to"];
    assert ResolveRecipient(p, paymentAddress) == Some(p);
    assert p["value" := p["value"]] == p;
    EncodingIsFixed(withTo["value" := value]);
  }
}
