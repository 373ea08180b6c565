/** An Ethereum transaction `[nonce, gasprice, startgas, to, value, data, v, r, s]`:
    construction-time validation, intrinsic gas, classification of the
    signature's `v` (unsigned sentinel, legacy 27/28, EIP-155 chain-protected),
    signing, lazily memoised sender recovery, contract-creation address,
    identity by hash, and the EIP-2 low-S checks. */
module Transactions {
  import opened Base
  import opened Opcodes
  import opened Collaborators

  /** 2^256: every amount field must lie below it. */
  const TT256: nat := 0x1_0000_0000_0000_0000_0000_0000_0000_0000_0000_0000_0000_0000_0000_0000_0000_0000

  /** The order of the secp256k1 group (`bitcoin.N`, equal to `secpk1n`). */
  const N: nat := 115792089237316195423570985008687907852837564279074904382605163141518161494337

  /** The sender reported for a transaction whose `r` and `s` are both zero. */
  const NULL_ADDRESS: Address := Repeat(0xFF, 20)

  /** Chain ids accepted at signing time lie in [1, MAX_CHAIN_ID). */
  const MAX_CHAIN_ID: nat := 9223372036854775790

  datatype Reason =
    | ValuesTooHigh           // "Values way too high!"
    | StartgasTooLow          // "Startgas too low"
    | InvalidV                // "Invalid V value"
    | InvalidSignatureValues  // "Invalid signature values!"
    | ZeroPublicKey           // "Invalid signature (zero privkey cannot sign)"
    | ZeroPrivateKey          // "Zero privkey cannot sign"
    | InvalidSValue           // "Invalid signature S value!"

  /** `InvalidTransaction`, or a failed Python `assert`, or the `TypeError`
      raised by `len` on an integer key. */
  datatype Error = InvalidTransaction(reason: Reason) | AssertionError | TypeError

  /** The nine serialised fields of a transaction, as a value. */
  datatype Tx = Tx(nonce: nat, gasprice: nat, startgas: nat, to: Bytes, value: nat,
                   data: Bytes, v: nat, r: nat, s: nat)

  // ---------------------------------------------------------------------------
  // Intrinsic gas

  /** Number of zero bytes in `data`. */
  function ZeroBytes(data: Bytes): (z: nat)
    ensures z <= |data|
    ensures z == |data| <==> forall i :: 0 <= i < |data| ==> data[i] == 0
  {
    if data == [] then 0
    else (if data[0] == 0 then 1 else 0) + ZeroBytes(data[1..])
  }

  /** `ZeroBytes` agrees with counting occurrences of byte 0 in the multiset of bytes. */
  lemma {:induction false} ZeroBytesIsCount(data: Bytes)
    ensures ZeroBytes(data) == multiset(data)[0]
  {
    if data != [] {
      ZeroBytesIsCount(data[1..]);
      assert data == [data[0]] + data[1..];
      assert multiset(data) == multiset([data[0]]) + multiset(data[1..]);
    }
  }

  lemma {:induction false} ZeroBytesAppend(a: Bytes, b: Bytes)
    ensures ZeroBytes(a + b) == ZeroBytes(a) + ZeroBytes(b)
  {
    if a == [] {
      assert a + b == b;
    } else {
      ZeroBytesAppend(a[1..], b);
      assert (a + b)[1..] == a[1..] + b;
    }
  }

  /** The gas a transaction with this `data` costs before it executes. */
  function IntrinsicGas(data: Bytes): (g: nat)
    ensures GTXCOST + GTXDATAZERO * |data| <= g <= GTXCOST + GTXDATANONZERO * |data|
    ensures g == GTXCOST + GTXDATAZERO * multiset(data)[0] + GTXDATANONZERO * (|data| - multiset(data)[0])
  {
    ZeroBytesIsCount(data);
    var zero := ZeroBytes(data);
    GTXCOST + GTXDATAZERO * zero + GTXDATANONZERO * (|data| - zero)
  }

  /** Data costs add up: appending bytes never lowers the intrinsic gas. */
  lemma IntrinsicGasAppend(a: Bytes, b: Bytes)
    ensures IntrinsicGas(a + b) == IntrinsicGas(a) + IntrinsicGas(b) - GTXCOST
    ensures IntrinsicGas(a) <= IntrinsicGas(a + b)
  {
  }

  // ---------------------------------------------------------------------------
  // Construction

  predicate ToLengthOk(to: Bytes)
  {
    |to| == 20 || |to| == 0
  }

  /** The checks `Transaction.__init__` runs, in their order. */
  function CheckConstruction(nonce: nat, gasprice: nat, startgas: nat, to: Bytes,
                             value: nat, data: Bytes): (o: Outcome<Error>)
    ensures o == Pass <==>
      && ToLengthOk(to)
      && nonce < TT256 && gasprice < TT256 && startgas < TT256 && value < TT256
      && startgas >= IntrinsicGas(data)
    ensures !ToLengthOk(to) ==> o == Fail(AssertionError)
    ensures ToLengthOk(to) && (nonce >= TT256 || gasprice >= TT256 || startgas >= TT256 || value >= TT256)
            ==> o == Fail(InvalidTransaction(ValuesTooHigh))
    ensures o == Fail(InvalidTransaction(StartgasTooLow)) <==>
      && ToLengthOk(to)
      && nonce < TT256 && gasprice < TT256 && startgas < TT256 && value < TT256
      && startgas < IntrinsicGas(data)
  {
    if !ToLengthOk(to) then Fail(AssertionError)
    else if gasprice >= TT256 || startgas >= TT256 || value >= TT256 || nonce >= TT256 then
      Fail(InvalidTransaction(ValuesTooHigh))
    else if startgas < IntrinsicGas(data) then Fail(InvalidTransaction(StartgasTooLow))
    else Pass
  }

  /** `startgas` equal to the intrinsic gas is accepted; one less is refused. */
  lemma StartgasBoundary(nonce: nat, gasprice: nat, to: Bytes, value: nat, data: Bytes)
    requires ToLengthOk(to) && nonce < TT256 && gasprice < TT256 && value < TT256
    requires IntrinsicGas(data) < TT256
    ensures CheckConstruction(nonce, gasprice, IntrinsicGas(data), to, value, data) == Pass
    ensures CheckConstruction(nonce, gasprice, IntrinsicGas(data) - 1, to, value, data)
            == Fail(InvalidTransaction(StartgasTooLow))
  {
  }

  // ---------------------------------------------------------------------------
  // The three RLP field lists and the hashes over them

  /** The full nine-field list. */
  function AllFields(t: Tx): seq<Field>
  {
    [Int(t.nonce), Int(t.gasprice), Int(t.startgas), Str(t.to), Int(t.value), Str(t.data),
     Int(t.v), Int(t.r), Int(t.s)]
  }

  /** The six fields without the signature (`UnsignedTransaction`). */
  function UnsignedFields(t: Tx): seq<Field>
  {
    [Int(t.nonce), Int(t.gasprice), Int(t.startgas), Str(t.to), Int(t.value), Str(t.data)]
  }

  /** The six unsigned fields followed by `[chainId, '', '']` (EIP-155). */
  function ChainFields(t: Tx, chainId: nat): seq<Field>
  {
    UnsignedFields(t) + [Int(chainId), Str([]), Str([])]
  }

  /** `Transaction.hash`. */
  function TxHash(c: Crypto, t: Tx): Hash32
  {
    c.sha3(c.encode(AllFields(t)))
  }

  // ---------------------------------------------------------------------------
  // Classifying `v`

  /** How the sender getter reads `(v, r, s)`. */
  datatype Scheme =
    | Unsigned(rawV: nat)                      // r == s == 0: the null signature
    | Legacy(parity: Parity)                   // v in {27, 28}
    | Protected(parity: Parity, chainId: nat)  // v >= 37 (EIP-155)

  /** The chain id encoded in a protected `v`. */
  function ChainIdOf(v: nat): (id: nat)
    requires v >= 37
    ensures id >= 1
  {
    (v - 1) / 2 - 17
  }

  /** The recovery parity encoded in a protected `v`: always 27 or 28. */
  function ParityOf(v: nat): (p: Parity)
    requires v >= 37
    ensures p == 27 <==> v % 2 == 1
  {
    v - ChainIdOf(v) * 2 - 8
  }

  /** The `v` that signing with a chain id stores. */
  function SignedV(p: Parity, chainId: nat): nat
  {
    p + 8 + 2 * chainId
  }

  /** Signing with chain id `chainId >= 1` and then classifying gives back
      the chain id and the parity. */
  lemma ProtectedVRoundTrip(p: Parity, chainId: nat)
    requires chainId >= 1
    ensures SignedV(p, chainId) >= 37
    ensures ChainIdOf(SignedV(p, chainId)) == chainId
    ensures ParityOf(SignedV(p, chainId)) == p
  {
  }

  /** Every protected `v` is the signed `v` of its own parity and chain id. */
  lemma ProtectedVDecomposes(v: nat)
    requires v >= 37
    ensures SignedV(ParityOf(v), ChainIdOf(v)) == v
  {
  }

  function ClassifyV(v: nat, r: nat, s: nat): (res: Result<Scheme, Error>)
    ensures r == 0 && s == 0 ==> res == Ok(Unsigned(v))
    ensures res.Ok? && res.value.Unsigned? <==> r == 0 && s == 0
    ensures !(r == 0 && s == 0) ==> (res.Ok? <==> v == 27 || v == 28 || v >= 37)
    ensures res.Err? ==> res.error == InvalidTransaction(InvalidV)
    ensures res.Ok? && res.value.Legacy? ==> res.value.parity == v
    ensures res.Ok? && res.value.Protected? ==>
      && v >= 37 && res.value.chainId >= 1
      && SignedV(res.value.parity, res.value.chainId) == v
      && (res.value.parity == 27 <==> v % 2 == 1)
  {
    if r == 0 && s == 0 then Ok(Unsigned(v))
    else if v == 27 || v == 28 then Ok(Legacy(v))
    else if v >= 37 then Ok(Protected(ParityOf(v), ChainIdOf(v)))
    else Err(InvalidTransaction(InvalidV))
  }

  /** What the getter stores in `network_id` for a classified `v`. */
  function SchemeNetworkId(scheme: Scheme): (id: Option<nat>)
    ensures id.None? <==> scheme.Legacy?
    ensures scheme.Unsigned? ==> id == Some(scheme.rawV)
    ensures scheme.Protected? ==> id == Some(scheme.chainId)
  {
    match scheme
    case Unsigned(rawV) => Some(rawV)
    case Legacy(_) => None
    case Protected(_, chainId) => Some(chainId)
  }

  // ---------------------------------------------------------------------------
  // Sender recovery

  /** The hash a signature of this scheme was made over. */
  function RecoveryHash(c: Crypto, t: Tx, scheme: Scheme): Hash32
    requires !scheme.Unsigned?
  {
    match scheme
    case Legacy(_) => c.sha3(c.encode(UnsignedFields(t)))
    case Protected(_, chainId) => c.sha3(c.encode(ChainFields(t, chainId)))
  }

  predicate InCurveRange(x: nat)
  {
    0 < x < N
  }

  /** What the sender getter computes when nothing is cached. */
  function RecoverSender(c: Crypto, t: Tx): (res: Result<Bytes, Error>)
    ensures t.r == 0 && t.s == 0 ==> res == Ok(NULL_ADDRESS)
    ensures ClassifyV(t.v, t.r, t.s).Err? ==> res == Err(InvalidTransaction(InvalidV))
    ensures ClassifyV(t.v, t.r, t.s).Ok? && !(t.r == 0 && t.s == 0)
            && !(InCurveRange(t.r) && InCurveRange(t.s))
            ==> res == Err(InvalidTransaction(InvalidSignatureValues))
    ensures !(t.r == 0 && t.s == 0) && ClassifyV(t.v, t.r, t.s).Ok?
            && InCurveRange(t.r) && InCurveRange(t.s) ==>
      var scheme := ClassifyV(t.v, t.r, t.s).value;
      var pub := c.ecrecoverToPub(RecoveryHash(c, t, scheme), scheme.parity, t.r, t.s);
      && (res == Err(InvalidTransaction(ZeroPublicKey)) <==> pub == Repeat(0, 64))
      && (pub != Repeat(0, 64) ==> res == Ok(c.sha3(pub)[12..]))
    ensures res.Ok? ==> |res.value| == 20
    ensures res.Ok? && !(t.r == 0 && t.s == 0) ==>
      && InCurveRange(t.r) && InCurveRange(t.s)
      && (t.v == 27 || t.v == 28 || t.v >= 37)
  {
    match ClassifyV(t.v, t.r, t.s)
    case Err(e) => Err(e)
    case Ok(scheme) =>
      if scheme.Unsigned? then Ok(NULL_ADDRESS)
      else if !(InCurveRange(t.r) && InCurveRange(t.s)) then
        Err(InvalidTransaction(InvalidSignatureValues))
      else
        var pub := c.ecrecoverToPub(RecoveryHash(c, t, scheme), scheme.parity, t.r, t.s);
        if pub == Repeat(0, 64) then Err(InvalidTransaction(ZeroPublicKey))
        else Ok(c.sha3(pub)[12..])
  }

  /** The null signature is never handed to the recovery primitive: its
      sender does not depend on the collaborators at all. */
  lemma SentinelIgnoresCrypto(c1: Crypto, c2: Crypto, t: Tx)
    requires t.r == 0 && t.s == 0
    ensures RecoverSender(c1, t) == RecoverSender(c2, t) == Ok(NULL_ADDRESS)
    ensures ClassifyV(t.v, t.r, t.s).Ok? && SchemeNetworkId(ClassifyV(t.v, t.r, t.s).value) == Some(t.v)
  {
  }

  // ---------------------------------------------------------------------------
  // Signing

  /** A private key as `sign` receives it: an integer or a byte string
      (raw 32 bytes, or 64 hex characters). */
  datatype PrivKey = IntKey(n: int) | BytesKey(b: Bytes)

  /** The four spellings of the zero key `sign` refuses. */
  predicate IsZeroKey(key: PrivKey)
  {
    || key == IntKey(0)
    || key == BytesKey([])
    || key == BytesKey(Repeat(0, 32))
    || key == BytesKey(Repeat(0x30, 64))  // '0' * 64
  }

  /** The key handed to `ecsign`: a 64-character key is decoded from hex. */
  function BinaryKey(c: Crypto, b: Bytes): Bytes
  {
    if |b| == 64 then c.encodePrivkeyBin(b) else b
  }

  predicate ChainIdInRange(networkId: Option<int>)
  {
    networkId.Some? ==> 1 <= networkId.value < MAX_CHAIN_ID
  }

  /** The hash `sign` signs: over the unsigned fields, or over the unsigned
      fields plus `[big_endian_to_int(networkId), '', '']`. */
  function SigningHash(c: Crypto, t: Tx, networkId: Option<int>): Hash32
    requires ChainIdInRange(networkId)
  {
    match networkId
    case None => c.sha3(c.encode(UnsignedFields(t)))
    case Some(id) => c.sha3(c.encode(ChainFields(t, c.chainIdToInt(id))))
  }

  /** The new `v`, `r`, `s` and cached sender after a successful `sign`. */
  datatype Signing = Signing(v: nat, r: nat, s: nat, sender: Address)

  function SignResult(c: Crypto, t: Tx, key: PrivKey, networkId: Option<int>): (res: Result<Signing, Error>)
    ensures IsZeroKey(key) ==> res == Err(InvalidTransaction(ZeroPrivateKey))
    ensures !IsZeroKey(key) && !ChainIdInRange(networkId) ==> res == Err(AssertionError)
    ensures !IsZeroKey(key) && ChainIdInRange(networkId) && key.IntKey? ==> res == Err(TypeError)
    ensures res.Ok? <==> !IsZeroKey(key) && ChainIdInRange(networkId) && key.BytesKey?
    ensures res.Ok? ==> res.value.sender == c.privToAddr(BinaryKey(c, key.b))
    ensures res.Ok? && networkId.None? ==> res.value.v == 27 || res.value.v == 28
    ensures res.Ok? && networkId.Some? ==>
      res.value.v >= 37 && ChainIdOf(res.value.v) == networkId.value
  {
    if IsZeroKey(key) then Err(InvalidTransaction(ZeroPrivateKey))
    else if !ChainIdInRange(networkId) then Err(AssertionError)
    else if key.IntKey? then Err(TypeError)
    else
      var bin := BinaryKey(c, key.b);
      var sig := c.ecsign(SigningHash(c, t, networkId), bin);
      match networkId
      case None => Ok(Signing(sig.v, sig.r, sig.s, c.privToAddr(bin)))
      case Some(id) =>
        ProtectedVRoundTrip(sig.v, id);
        Ok(Signing(SignedV(sig.v, id), sig.r, sig.s, c.privToAddr(bin)))
  }

  /** What ECDSA promises of one signature: `r` and `s` in range, and
      recovery over the same hash yields a non-zero public key whose address
      is the key's address. */
  predicate SignatureRecoverable(c: Crypto, h: Hash32, key: Bytes)
  {
    var sig := c.ecsign(h, key);
    var pub := c.ecrecoverToPub(h, sig.v, sig.r, sig.s);
    && InCurveRange(sig.r) && InCurveRange(sig.s)
    && pub != Repeat(0, 64)
    && c.sha3(pub)[12..] == c.privToAddr(key)
  }

  /** Signing and then recovering the sender from the stored `(v, r, s)`
      gives the key's address and the chain id that was signed with, on both
      the legacy and the chain-protected path. */
  lemma SignThenRecover(c: Crypto, t: Tx, key: PrivKey, networkId: Option<int>)
    requires SignResult(c, t, key, networkId).Ok?
    requires networkId.Some? ==> networkId.value >= 1 && c.chainIdToInt(networkId.value) == networkId.value
    requires key.BytesKey? && SignatureRecoverable(c, SigningHash(c, t, networkId), BinaryKey(c, key.b))
    ensures var sg := SignResult(c, t, key, networkId).value;
            var signed := t.(v := sg.v, r := sg.r, s := sg.s);
            && RecoverSender(c, signed) == Ok(sg.sender)
            && ClassifyV(signed.v, signed.r, signed.s).Ok?
            && SchemeNetworkId(ClassifyV(signed.v, signed.r, signed.s).value)
               == (if networkId.None? then None else Some(networkId.value as nat))
  {
  }

  // ---------------------------------------------------------------------------
  // Contract creation

  /** `to` marks a contract creation when it is empty or twenty zero bytes;
      any other 20-byte address never creates a contract. */
  function IsCreation(to: Bytes): (b: bool)
    ensures b <==> (|to| == 0 || |to| == 20) && forall i :: 0 <= i < |to| ==> to[i] == 0
  {
    to == [] || to == Repeat(0, 20)
  }

  // ---------------------------------------------------------------------------
  // The transaction object

  /** The memoised sender counts as present only when it is a non-empty
      byte string (Python truthiness of `_sender`). */
  predicate IsTruthy(cache: Option<Bytes>)
  {
    cache.Some? && |cache.value| > 0
  }

  class Transaction {
    var nonce: nat
    var gasprice: nat
    var startgas: nat
    var to: Bytes
    var value: nat
    var data: Bytes
    var v: nat
    var r: nat
    var s: nat
    /** `network_id`, written by the sender getter */
    var networkId: Option<nat>
    /** `_sender`: the memoised sender, or whatever the setter stored */
    var cachedSender: Option<Bytes>

    function AsTx(): Tx
      reads this
    {
      Tx(nonce, gasprice, startgas, to, value, data, v, r, s)
    }

    /** What construction guarantees about the stored fields. */
    ghost predicate Valid()
      reads this
    {
      CheckConstruction(nonce, gasprice, startgas, to, value, data) == Pass
    }

    /** Stores the nine fields (the serialisable base class's initialiser). */
    constructor Init(nonce: nat, gasprice: nat, startgas: nat, to: Bytes, value: nat,
                     data: Bytes, v: nat, r: nat, s: nat)
      ensures AsTx() == Tx(nonce, gasprice, startgas, to, value, data, v, r, s)
      ensures networkId == None && cachedSender == None
    {
      this.nonce, this.gasprice, this.startgas := nonce, gasprice, startgas;
      this.to, this.value, this.data := to, value, data;
      this.v, this.r, this.s := v, r, s;
      networkId := None;
      cachedSender := None;
    }

    /** `Transaction(nonce, gasprice, startgas, to, value, data, v, r, s)`:
        fails exactly as the construction checks say. */
    static method Create(nonce: nat, gasprice: nat, startgas: nat, to: Bytes, value: nat,
                         data: Bytes, v: nat, r: nat, s: nat)
      returns (res: Result<Transaction, Error>)
      ensures res.Ok? <==> CheckConstruction(nonce, gasprice, startgas, to, value, data) == Pass
      ensures res.Err? ==> CheckConstruction(nonce, gasprice, startgas, to, value, data) == Fail(res.error)
      ensures res.Ok? ==>
        && fresh(res.value) && res.value.Valid()
        && res.value.AsTx() == Tx(nonce, gasprice, startgas, to, value, data, v, r, s)
        && res.value.networkId == None && res.value.cachedSender == None
    {
      if !(|to| == 20 || |to| == 0) {
        return Err(AssertionError);
      }
      var tx := new Transaction.Init(nonce, gasprice, startgas, to, value, data, v, r, s);
      if tx.gasprice >= TT256 || tx.startgas >= TT256 || tx.value >= TT256 || tx.nonce >= TT256 {
        return Err(InvalidTransaction(ValuesTooHigh));
      }
      if tx.startgas < IntrinsicGas(tx.data) {
        return Err(InvalidTransaction(StartgasTooLow));
      }
      res := Ok(tx);
    }

    /** `contract(...)`: a transaction with an empty `to`. */
    static method Contract(nonce: nat, gasprice: nat, startgas: nat, endowment: nat, code: Bytes,
                           v: nat, r: nat, s: nat)
      returns (res: Result<Transaction, Error>)
      ensures res.Ok? <==> CheckConstruction(nonce, gasprice, startgas, [], endowment, code) == Pass
      ensures res.Err? ==> CheckConstruction(nonce, gasprice, startgas, [], endowment, code) == Fail(res.error)
      ensures res.Ok? ==>
        && fresh(res.value) && res.value.Valid() && IsCreation(res.value.to)
        && res.value.AsTx() == Tx(nonce, gasprice, startgas, [], endowment, code, v, r, s)
        && res.value.networkId == None && res.value.cachedSender == None
    {
      res := Create(nonce, gasprice, startgas, [], endowment, code, v, r, s);
    }

    /** The `sender` getter: returns the memoised sender if it is truthy,
        otherwise classifies `v`, records `network_id`, checks `r` and `s`,
        recovers and memoises. */
    method Sender(c: Crypto) returns (res: Result<Bytes, Error>)
      modifies this`networkId, this`cachedSender
      ensures IsTruthy(old(cachedSender)) ==>
        res == Ok(old(cachedSender).value) && unchanged(this)
      ensures !IsTruthy(old(cachedSender)) ==>
        && res == RecoverSender(c, AsTx())
        && networkId == (match ClassifyV(v, r, s)
                         case Ok(scheme) => SchemeNetworkId(scheme)
                         case Err(_) => old(networkId))
        && cachedSender == (if res.Ok? then Some(res.value) else old(cachedSender))
      ensures res.Ok? ==> cachedSender == Some(res.value) && IsTruthy(cachedSender)
      ensures old(Valid()) ==> Valid()
    {
      if IsTruthy(cachedSender) {
        return Ok(cachedSender.value);
      }
      if r == 0 && s == 0 {
        networkId := Some(v);
        cachedSender := Some(NULL_ADDRESS);
        return Ok(NULL_ADDRESS);
      }
      var vee: Parity;
      var sighash: Hash32;
      if v == 27 || v == 28 {
        networkId := None;
        vee := v;
        sighash := c.sha3(c.encode(UnsignedFields(AsTx())));
        assert sighash == RecoveryHash(c, AsTx(), Legacy(vee));
      } else if v >= 37 {
        var id := (v - 1) / 2 - 17;
        networkId := Some(id);
        vee := v - id * 2 - 8;
        sighash := c.sha3(c.encode(ChainFields(AsTx(), id)));
        assert ClassifyV(v, r, s) == Ok(Protected(vee, id));
        assert sighash == RecoveryHash(c, AsTx(), Protected(vee, id));
      } else {
        return Err(InvalidTransaction(InvalidV));
      }
      if r >= N || s >= N || r == 0 || s == 0 {
        return Err(InvalidTransaction(InvalidSignatureValues));
      }
      var pub := c.ecrecoverToPub(sighash, vee, r, s);
      if pub == Repeat(0, 64) {
        return Err(InvalidTransaction(ZeroPublicKey));
      }
      var address := c.sha3(pub)[12..];
      cachedSender := Some(address);
      res := Ok(address);
    }

    /** The `sender` setter: overwrites the memoised sender. */
    method SetSender(sender: Option<Bytes>)
      modifies this`cachedSender
      ensures cachedSender == sender
      ensures old(Valid()) ==> Valid()
    {
      cachedSender := sender;
    }

    /** `sign(key, network_id)`: refuses zero keys and out-of-range chain
        ids, then overwrites `v`, `r`, `s` and the memoised sender. */
    method Sign(c: Crypto, key: PrivKey, networkId: Option<int>) returns (res: Outcome<Error>)
      modifies this`v, this`r, this`s, this`cachedSender
      ensures res == Pass <==> SignResult(c, old(AsTx()), key, networkId).Ok?
      ensures res.Fail? ==>
        res.error == SignResult(c, old(AsTx()), key, networkId).error && unchanged(this)
      ensures res == Pass ==>
        var sg := SignResult(c, old(AsTx()), key, networkId).value;
        v == sg.v && r == sg.r && s == sg.s && cachedSender == Some(sg.sender)
      ensures old(Valid()) ==> Valid()
    {
      if IsZeroKey(key) {
        return Fail(InvalidTransaction(ZeroPrivateKey));
      }
      var rawhash: Hash32;
      if networkId.None? {
        rawhash := c.sha3(c.encode(UnsignedFields(AsTx())));
      } else {
        if !(1 <= networkId.value < MAX_CHAIN_ID) {
          return Fail(AssertionError);
        }
        rawhash := c.sha3(c.encode(ChainFields(AsTx(), c.chainIdToInt(networkId.value))));
      }
      if key.IntKey? {
        return Fail(TypeError);
      }
      var bin := key.b;
      if |bin| == 64 {
        bin := c.encodePrivkeyBin(bin);
      }
      var sig := c.ecsign(rawhash, bin);
      v, r, s := sig.v, sig.r, sig.s;
      if networkId.Some? {
        v := v + 8 + networkId.value * 2;
      }
      cachedSender := Some(c.privToAddr(bin));
      res := Pass;
    }

    /** `creates`: the address of the contract this transaction creates, or
        none when `to` names an account. Reads the sender, with its caching. */
    method Creates(c: Crypto) returns (res: Result<Option<Address>, Error>)
      modifies this`networkId, this`cachedSender
      ensures !IsCreation(to) ==> res == Ok(None) && unchanged(this)
      ensures IsCreation(to) && IsTruthy(old(cachedSender)) ==>
        res == Ok(Some(c.mkContractAddress(old(cachedSender).value, nonce))) && unchanged(this)
      ensures IsCreation(to) && !IsTruthy(old(cachedSender)) ==>
        && res == (match RecoverSender(c, AsTx())
                   case Ok(sender) => Ok(Some(c.mkContractAddress(sender, nonce)))
                   case Err(e) => Err(e))
        && networkId == (match ClassifyV(v, r, s)
                         case Ok(scheme) => SchemeNetworkId(scheme)
                         case Err(_) => old(networkId))
        && cachedSender == (match RecoverSender(c, AsTx())
                            case Ok(sender) => Some(sender)
                            case Err(_) => old(cachedSender))
      ensures old(Valid()) ==> Valid()
    {
      if IsCreation(to) {
        var sender := Sender(c);
        match sender
        case Ok(a) => res := Ok(Some(c.mkContractAddress(a, nonce)));
        case Err(e) => res := Err(e);
      } else {
        res := Ok(None);
      }
    }

    /** `hash`: Keccak of the RLP encoding of all nine fields. */
    function Hash(c: Crypto): (h: Hash32)
      reads this
      ensures h == c.sha3(c.encode(UnsignedFields(AsTx()) + [Int(v), Int(r), Int(s)]))
    {
      assert AllFields(AsTx()) == UnsignedFields(AsTx()) + [Int(v), Int(r), Int(s)];
      TxHash(c, AsTx())
    }

    /** `__eq__`: two transactions are equal when their hashes are. */
    function Equals(c: Crypto, other: Transaction): (eq: bool)
      reads this, other
      ensures AsTx() == other.AsTx() ==> eq
    {
      Hash(c) == other.Hash(c)
    }

    /** `__hash__`: the hash read as a big-endian integer. */
    function HashKey(c: Crypto): (k: nat)
      reads this
      ensures k < Pow256(32)
    {
      BigEndianToInt(Hash(c))
    }

    /** `check_low_s_metropolis`. */
    function CheckLowSMetropolis(): (o: Outcome<Error>)
      reads this
      ensures o == Pass <==> s <= N / 2
      ensures o.Fail? ==> o.error == InvalidTransaction(InvalidSValue)
    {
      if s > N / 2 then Fail(InvalidTransaction(InvalidSValue)) else Pass
    }

    /** `check_low_s_homestead`. */
    function CheckLowSHomestead(): (o: Outcome<Error>)
      reads this
      ensures o == Pass <==> 0 < s <= N / 2
      ensures o.Fail? ==> o.error == InvalidTransaction(InvalidSValue)
    {
      if s > N / 2 || s == 0 then Fail(InvalidTransaction(InvalidSValue)) else Pass
    }
  }

  // ---------------------------------------------------------------------------
  // Facts about the object

  /** `__eq__` and `__hash__` agree: equal transactions have equal hash keys,
      and equal hash keys mean equal transactions. */
  lemma HashKeyMatchesEquals(c: Crypto, a: Transaction, b: Transaction)
    ensures a.Equals(c, b) <==> a.HashKey(c) == b.HashKey(c)
  {
    if a.HashKey(c) == b.HashKey(c) {
      BigEndianInjective(a.Hash(c), b.Hash(c));
    }
  }

  /** Transactions with the same nine fields are equal; when the encoding
      and hash do not collide on the two field lists, equal transactions have
      the same nine fields. */
  lemma EqualsIffSameFields(c: Crypto, a: Transaction, b: Transaction)
    requires TxHash(c, a.AsTx()) == TxHash(c, b.AsTx()) ==> AllFields(a.AsTx()) == AllFields(b.AsTx())
    ensures a.Equals(c, b) <==> a.AsTx() == b.AsTx()
  {
  }

  /** Every `s` the Homestead check accepts, the Metropolis check accepts;
      they differ exactly at `s == 0`. */
  lemma LowSHomesteadStricter(tx: Transaction)
    ensures tx.CheckLowSHomestead() == Pass ==> tx.CheckLowSMetropolis() == Pass
    ensures (tx.CheckLowSMetropolis() == Pass && tx.CheckLowSHomestead() != Pass) <==> tx.s == 0
  {
  }

  /** Reading the sender twice: the second read returns what the first
      returned and changes nothing. */
  method SenderMemoised(c: Crypto, tx: Transaction) returns (first: Result<Bytes, Error>, second: Result<Bytes, Error>)
    modifies tx`networkId, tx`cachedSender
    ensures first.Ok? ==> second == first
  {
    first := tx.Sender(c);
    var nid, cached := tx.networkId, tx.cachedSender;
    second := tx.Sender(c);
    assert first.Ok? ==> tx.networkId == nid && tx.cachedSender == cached;
  }

  /** After a successful `sign`, the sender getter returns the key's address
      without running recovery. */
  method SignThenSender(c: Crypto, tx: Transaction, key: PrivKey, networkId: Option<int>)
    returns (signed: Outcome<Error>, sender: Result<Bytes, Error>)
    modifies tx`v, tx`r, tx`s, tx`networkId, tx`cachedSender
    ensures signed == Pass ==> key.BytesKey? && sender == Ok(c.privToAddr(BinaryKey(c, key.b)))
  {
    signed := tx.Sign(c, key, networkId);
    sender := tx.Sender(c);
  }
}
