/**
 * The argument handling at the top of `Session.balance(address, fiat_type)`:
 * which address is queried, which denomination or currency is asked for,
 * and whether the native-unit or the fiat-conversion branch is taken.
 * The balance fetch and the conversions themselves are external.
 */
module Balance {
  import opened Wrappers

  /** `String.prototype.toLowerCase` on one character (ASCII letters only). */
  function LowerChar(c: char): char {
    if 'A' <= c <= 'Z' then (c as int + 32) as char else c
  }

  /** `String.prototype.toUpperCase` on one character (ASCII letters only). */
  function UpperChar(c: char): char {
    if 'a' <= c <= 'z' then (c as int - 32) as char else c
  }

  function Lower(s: string): (r: string)
    ensures |r| == |s| && forall i | 0 <= i < |s| :: r[i] == LowerChar(s[i])
  {
    seq(|s|, i requires 0 <= i < |s| => LowerChar(s[i]))
  }

  function Upper(s: string): (r: string)
    ensures |r| == |s| && forall i | 0 <= i < |s| :: r[i] == UpperChar(s[i])
  {
    seq(|s|, i requires 0 <= i < |s| => UpperChar(s[i]))
  }

  predicate StartsWith(s: string, prefix: string) {
    |prefix| <= |s| && s[..|prefix|] == prefix
  }

  /** A string argument that is truthy: given, and not the empty string. */
  predicate Supplied(a: Option<string>) {
    a.Some? && a.value != ""
  }

  /** `fiat_type.toLowerCase() in unit.unitMap` selects `Native`; otherwise the rate table is indexed by the upper-cased code. */
  datatype Branch = Native(unitName: string) | Fiat(currencyCode: string)

  /** What `balance` asks its collaborators for. */
  datatype Query = Query(address: string, fiatType: string, branch: Branch)

  /**
   * Disambiguates the two optional arguments of `balance`. `paymentAddress`
   * is the configured default address and `unitMap` the set of denomination
   * names the unit converter knows.
   */
  function Resolve(address: Option<string>, fiatType: Option<string>, paymentAddress: string, unitMap: set<string>): (q: Query)
    ensures Supplied(address) && StartsWith(address.value, "0x") ==> q.address == address.value
    ensures !(Supplied(address) && StartsWith(address.value, "0x")) ==> q.address == paymentAddress
    ensures Supplied(address) && !StartsWith(address.value, "0x") && Lower(address.value) != "eth" ==>
              q.fiatType == address.value
    ensures Supplied(address) && !StartsWith(address.value, "0x") && Lower(address.value) == "eth" ==>
              q.fiatType == "ether"
    ensures !(Supplied(address) && !StartsWith(address.value, "0x")) && Supplied(fiatType) && Lower(fiatType.value) != "eth" ==>
              q.fiatType == fiatType.value
    ensures !(Supplied(address) && !StartsWith(address.value, "0x")) && (!Supplied(fiatType) || Lower(fiatType.value) == "eth") ==>
              q.fiatType == "ether"
    ensures q.fiatType != ""
    ensures q.branch.Native? <==> Lower(q.fiatType) in unitMap
    ensures q.branch.Native? ==> q.branch.unitName == Lower(q.fiatType)
    ensures q.branch.Fiat? ==> q.branch.currencyCode == Upper(q.fiatType)
  {
    var (addr, fiat) :=
      if Supplied(address) then
        if !StartsWith(address.value, "0x") then (paymentAddress, address) else (address.value, fiatType)
      else (paymentAddress, fiatType);
    var ft := if !Supplied(fiat) || Lower(fiat.value) == "eth" then "ether" else fiat.value;
    Query(addr, ft, if Lower(ft) in unitMap then Native(Lower(ft)) else Fiat(Upper(ft)))
  }

  /** With no fiat type, the balance is reported in ether by the native branch. */
  lemma DefaultIsEther(address: Option<string>, paymentAddress: string, unitMap: set<string>)
    requires "ether" in unitMap
    requires !Supplied(address) || StartsWith(address.value, "0x")
    ensures Resolve(address, None, paymentAddress, unitMap).fiatType == "ether"
    ensures Resolve(address, None, paymentAddress, unitMap).branch == Native("ether")
  {
    assert Lower("ether") == "ether";
  }

  /** "eth" in any letter case means ether, whichever argument slot it is passed in. */
  lemma EthInAnyCase(s: string, paymentAddress: string, unitMap: set<string>)
    requires Lower(s) == "eth"
    requires "ether" in unitMap
    ensures Resolve(Some(s), None, paymentAddress, unitMap) == Query(paymentAddress, "ether", Native("ether"))
    ensures Resolve(None, Some(s), paymentAddress, unitMap) == Query(paymentAddress, "ether", Native("ether"))
  {
    assert s != "";
    assert s[0] == 'e' || s[0] == 'E' by { assert LowerChar(s[0]) == 'e'; }
    assert !StartsWith(s, "0x");
    assert Lower("ether") == "ether";
  }

  /** `balance("SGD")`: a currency code in the address slot queries the default address. */
  lemma FiatInAddressSlot(code: string, paymentAddress: string, unitMap: set<string>)
    requires code != "" && !StartsWith(code, "0x") && Lower(code) != "eth"
    requires Lower(code) !in unitMap
    ensures Resolve(Some(code), None, paymentAddress, unitMap) == Query(paymentAddress, code, Fiat(Upper(code)))
  {
  }

  /** `balance("0xDEF", "USD")`: an explicit address is queried for the given currency. */
  lemma ExplicitAddress(address: string, code: string, paymentAddress: string, unitMap: set<string>)
    requires StartsWith(address, "0x")
    requires code != "" && Lower(code) != "eth" && Lower(code) !in unitMap
    ensures Resolve(Some(address), Some(code), paymentAddress, unitMap) == Query(address, code, Fiat(Upper(code)))
  {
  }

  lemma UpperOfLowerChar(a: char, b: char)
    requires LowerChar(a) == LowerChar(b)
    ensures UpperChar(a) == UpperChar(b)
  {
  }

  /** Two fiat types that differ only in letter case select the same branch with the same key. */
  lemma BranchIsCaseInsensitive(address: Option<string>, f1: string, f2: string, paymentAddress: string, unitMap: set<string>)
    requires Lower(f1) == Lower(f2)
    ensures Resolve(address, Some(f1), paymentAddress, unitMap).branch
         == Resolve(address, Some(f2), paymentAddress, unitMap).branch
  {
    assert |f1| == |f2|;
    forall i | 0 <= i < |f1| ensures UpperChar(f1[i]) == UpperChar(f2[i]) {
      assert LowerChar(f1[i]) == Lower(f1)[i] == Lower(f2)[i] == LowerChar(f2[i]);
      UpperOfLowerChar(f1[i], f2[i]);
    }
    assert Upper(f1) == Upper(f2);
  }
}
