/** The foreign code the transaction core calls, as uninterpreted total
    functions passed in as a record: RLP encoding (Ethereum Yellow Paper,
    Appendix B), Keccak-256, ECDSA over secp256k1, address derivation and
    private-key format conversion. Their types carry the only assumptions
    made about them: each is total (it never raises), `ecsign` yields a `v`
    of 27 or 28, Keccak yields 32 bytes, and the two address derivations
    yield 20 bytes. Any further property a lemma needs is a hypothesis. */
module Collaborators {
  import opened Base

  /** One item of an RLP list: a big-endian integer or a raw byte string. */
  datatype Field = Int(n: nat) | Str(b: Bytes)

  /** The recovery identifier produced by raw ECDSA signing. */
  type Parity = v: nat | v == 27 || v == 28 witness 27

  datatype Sig = Sig(v: Parity, r: nat, s: nat)

  datatype Crypto = Crypto(
    /** `rlp.encode` of a list of fields */
    encode: seq<Field> -> Bytes,
    /** `utils.sha3` (Keccak-256) */
    sha3: Bytes -> Hash32,
    /** `utils.ecsign(rawhash, key)` */
    ecsign: (Hash32, Bytes) -> Sig,
    /** `utils.ecrecover_to_pub(hash, v, r, s)`: a 64-byte public key */
    ecrecoverToPub: (Hash32, Parity, nat, nat) -> Bytes,
    /** `utils.privtoaddr(key)` */
    privToAddr: Bytes -> Address,
    /** `utils.mk_contract_address(sender, nonce)` */
    mkContractAddress: (Bytes, nat) -> Address,
    /** `encode_privkey(key, 'bin')` on a 64-character hex key */
    encodePrivkeyBin: Bytes -> Bytes,
    /** `utils.big_endian_to_int` applied to the integer chain id at signing time */
    chainIdToInt: nat -> nat)
}
