# Ethereum transaction core (pyethereum `Transaction`)

A Dafny model of the `Transaction` class of pyethereum (`ethereum/transactions.py`):
the nine-field record `[nonce, gasprice, startgas, to, value, data, v, r, s]`,
its construction-time checks, the intrinsic-gas formula, the classification
of the signature value `v` into the null-signature sentinel, the legacy
27/28 scheme and the chain-protected scheme of EIP-155, signing, the lazily
memoised sender with its setter, the contract-creation address, identity by
hash, and the low-S checks of EIP-2.

Layout:

- `base.dfy` (module `Base`): bytes, 20- and 32-byte strings, `Option`/`Result`/`Outcome`,
  and the big-endian reading of a byte string used by `__hash__`.
- `opcodes.dfy` (module `Opcodes`): the gas prices `GTXCOST`, `GTXDATAZERO`,
  `GTXDATANONZERO` (21000, 4, 68). `ethereum/opcodes.py` is not part of this model.
- `collaborators.dfy` (module `Collaborators`): the foreign calls as a record
  of total functions passed to every operation that uses them: `rlp.encode`,
  `utils.sha3`, `ecsign`, `ecrecover_to_pub`, `privtoaddr`,
  `mk_contract_address`, `encode_privkey(key, 'bin')`, and
  `big_endian_to_int` as applied to the chain id at signing time.
- `transactions.dfy` (module `Transactions`): pure functions over the value
  `Tx` (the nine fields), lemmas about them, and the class `Transaction`,
  whose fields are updated in place by the sender getter (`network_id` and
  `_sender`), the sender setter and `sign` (`v`, `r`, `s`, `_sender`).

Error conditions are values: `InvalidTransaction(reason)` for each raise in
the source, `AssertionError` for the two Python `assert`s that guard inputs
(the 20-or-0 length of `to`, the chain-id range at signing), and `TypeError`
for the `len(key)` call that an integer key reaches.

Behaviour of the code worth noting:

- A `to` of the wrong length fails the Python `assert` at line 60 (`utils.normalize_address`, which runs first and is not part of this model, may already reject it), not `InvalidTransaction`;
  a chain id out of `[1, 2^63 - 18)` at signing also fails an `assert`.
- `creates` yields an address when `to` is empty OR twenty zero bytes.
- The class docstring's `0 <= v <= 3` is stale; the code accepts 27/28 and `v >= 37`.
- The sender getter writes `network_id` before it checks `r` and `s` and
  before recovery, so a transaction whose recovery fails still has its
  `network_id` updated.
- The recovered parity for `v >= 37` is always 27 or 28 (`ParityOf`), so the
  `assert` at line 89 never fails.
- The memoised sender is reused only when truthy: a setter storing `None` or
  an empty string makes the next read recover again.
- At signing time the chain id enters the signing hash through
  `big_endian_to_int(network_id)`, while recovery puts `network_id` in the list
  directly. The sign-then-recover lemma assumes that `big_endian_to_int`
  returns the chain id unchanged.

## Model

| member | source | states |
|---|---|---|
| `Transactions.ZeroBytes` | ethereum/transactions.py:161 | the count of zero bytes is at most the length, and equals it exactly when every byte is zero |
| `Transactions.ZeroBytesIsCount` | ethereum/transactions.py:161 | the recursive count equals the number of occurrences of byte 0 (the multiset count), as `str.count` does |
| `Transactions.ZeroBytesAppend` | ethereum/transactions.py:161-162 | the zero-byte count of a concatenation is the sum of the counts |
| `Transactions.IntrinsicGas` | ethereum/transactions.py:159-165 | intrinsic gas is GTXCOST + GTXDATAZERO per zero byte + GTXDATANONZERO per non-zero byte, and lies between GTXCOST + 4·len and GTXCOST + 68·len |
| `Transactions.IntrinsicGasAppend` | ethereum/transactions.py:159-165 | gas of concatenated data is the sum of the two data costs plus one base cost, so appending bytes never lowers it |
| `Transactions.CheckConstruction` | ethereum/transactions.py:56-69 | construction succeeds iff `to` has length 20 or 0, the four amounts are below 2^256 and startgas is at least the intrinsic gas; a bad `to` is an assertion failure, a large amount is "values too high", and "startgas too low" is returned exactly when `to` and the amounts pass but startgas is below the intrinsic gas |
| `Transactions.StartgasBoundary` | ethereum/transactions.py:68-69 | startgas equal to the intrinsic gas is accepted, one less is refused with "startgas too low" |
| `Transactions.ChainIdOf` | ethereum/transactions.py:87 | for every v ≥ 37 the chain id ((v-1) div 2) - 17 is at least 1 |
| `Transactions.ParityOf` | ethereum/transactions.py:88-89 | for every v ≥ 37 the parity v - 2·id - 8 is 27 or 28 (so the assert never fires), 27 exactly for odd v |
| `Transactions.ProtectedVRoundTrip` | ethereum/transactions.py:124-126 | signing with parity p and chain id c ≥ 1 stores v = p + 8 + 2c ≥ 37, from which classification gives back c and p |
| `Transactions.ProtectedVDecomposes` | ethereum/transactions.py:86-89 | every v ≥ 37 is the signed v of its own parity and chain id |
| `Transactions.ClassifyV` | ethereum/transactions.py:78-93 | the result is the unsigned sentinel exactly when r = s = 0; otherwise v is accepted iff it is 27, 28 or ≥ 37, legacy parity is v, protected v decomposes into parity and chain id ≥ 1, anything else is "invalid V" |
| `Transactions.RecoverSender` | ethereum/transactions.py:76-99 | the sentinel yields the null address; a bad v, or r or s outside (0, N), is refused; otherwise the key recovered over the scheme's hash and parity gives "zero privkey" exactly when it is 64 zero bytes and else the last 20 bytes of its Keccak hash; a recovered sender is 20 bytes and implies valid r, s and v |
| `Transactions.SentinelIgnoresCrypto` | ethereum/transactions.py:78-80 | with r = s = 0 no collaborator is consulted: the sender is the null address and network_id becomes v |
| `Transactions.SignResult` | ethereum/transactions.py:106-128 | zero keys are refused, out-of-range chain ids fail the assert, a non-zero integer key raises TypeError at `len(key)`, success iff the key is a non-zero byte string and the chain id is in range; the sender is privtoaddr of the binary key; v is 27/28 without a chain id and ≥ 37 encoding the chain id with one |
| `Transactions.SignThenRecover` | ethereum/transactions.py:113-128 | if ECDSA recovery is sound for the signed hash, recovering from the signed (v, r, s) yields the key's address and the signed chain id, on the legacy and the protected path |
| `Transactions.Transaction.Init` | ethereum/transactions.py:61-63 | the nine fields are stored as given, network_id and the memoised sender start absent |
| `Transactions.Transaction.Create` | ethereum/transactions.py:56-69 | the constructor fails exactly with the error the construction checks give, otherwise returns a fresh valid transaction holding the given fields |
| `Transactions.Transaction.Contract` | ethereum/transactions.py:203-206 | `contract` is construction with an empty `to`, so a successful result is a creation with no network_id and no memoised sender |
| `Transactions.Transaction.Sender` | ethereum/transactions.py:73-100 | a truthy cache is returned and nothing changes; otherwise the result is the recovered sender, network_id is set by the classification (kept on "invalid V"), and a success is memoised; construction validity is preserved |
| `Transactions.Transaction.SetSender` | ethereum/transactions.py:102-104 | the setter overwrites the memoised sender and keeps construction validity |
| `Transactions.Transaction.Sign` | ethereum/transactions.py:106-129 | on failure nothing changes and the error is the one SignResult gives; on success v, r, s and the memoised sender are overwritten with the signing result; construction validity is preserved |
| `Transactions.Transaction.Creates` | ethereum/transactions.py:167-171 | a non-creation `to` yields none with no state change; a creation yields mk_contract_address of the (memoised or recovered) sender and the nonce, or the recovery error, and leaves network_id and the memoised sender as the sender read does |
| `Transactions.Transaction.Hash` | ethereum/transactions.py:131-133 | the hash is Keccak of the encoding of the six unsigned fields followed by v, r and s |
| `Transactions.Transaction.Equals` | ethereum/transactions.py:173-174 | transactions with the same nine fields compare equal |
| `Transactions.IsCreation` | ethereum/transactions.py:170 | `to` marks a creation exactly when it is empty or 20 bytes that are all zero |
| `Transactions.SchemeNetworkId` | ethereum/transactions.py:79-87 | network_id becomes v for the sentinel, none for the legacy scheme and the chain id for the protected scheme |
| `Base.BigEndianToInt` | ethereum/transactions.py:177 | a byte string of length n reads big-endian as a number below 256^n |
| `Transactions.Transaction.HashKey` | ethereum/transactions.py:176-177 | `__hash__` is the hash read big-endian, below 2^256 |
| `Transactions.Transaction.CheckLowSMetropolis` | ethereum/transactions.py:191-193 | passes exactly when s ≤ N div 2 |
| `Transactions.Transaction.CheckLowSHomestead` | ethereum/transactions.py:195-197 | passes exactly when 0 < s ≤ N div 2 |
| `Transactions.LowSHomesteadStricter` | ethereum/transactions.py:191-197 | every s Homestead accepts Metropolis accepts; they differ exactly at s = 0 |
| `Transactions.HashKeyMatchesEquals` | ethereum/transactions.py:173-177 | `__eq__` holds exactly when the `__hash__` values agree |
| `Transactions.EqualsIffSameFields` | ethereum/transactions.py:131-133 | equal fields give equal transactions; without hash collisions, equal transactions have equal fields |
| `Transactions.SenderMemoised` | ethereum/transactions.py:76-100 | after a successful read, a second read returns the same sender |
| `Transactions.SignThenSender` | ethereum/transactions.py:124-128 | after a successful sign, the sender read returns privtoaddr of the binary key without recovery |
| `Base.BigEndianInjective` | ethereum/transactions.py:177 | the big-endian reading is injective on strings of one length |

## Left out

- RLP encoding (`rlp.encode`, `rlp.Serializable`, `infer_sedes`, the `UnsignedTransaction` exclusion): an uninterpreted encoder applied to the three explicit field lists; decoding and the encode/decode round trip belong to the RLP library.
- Keccak, ECDSA signing and recovery, `privtoaddr`, `mk_contract_address`, `encode_privkey`: foreign cryptographic calls, passed in as uninterpreted functions; beyond the assumptions their types carry (listed below), properties of them appear only as lemma hypotheses.
- `big_endian_to_int` applied to the integer chain id in `sign`: its behaviour on a non-byte-string argument lives in `ethereum/utils.py`, which is not part of this model; it is an uninterpreted function.
- `log_bloom`, `log_bloom_b64` and the `logs` list: they depend on the bloom module and on execution logs.
- `to_dict`, `log_dict`, `__repr__`, `__structlog__`, `log.debug` (and the hash it computes during construction): rendering and logging only.
- `utils.normalize_address`: only the `assert` after it, a `to` of length 20 or 0, is modelled; `to` arrives as bytes, and any rejection `normalize_address` itself makes before line 60 is not captured.
- Exceptions raised inside a collaborator (`ecsign` on a malformed key, `ecrecover_to_pub`, `encode_privkey`, `big_endian_to_int` on the integer chain id at line 117): every collaborator is a total function, so these failures cannot occur in the model.
- Output shapes of collaborators are assumed, not checked: `ecsign` returns a `v` of 27 or 28, `utils.sha3` returns 32 bytes, `privtoaddr` and `mk_contract_address` return 20 bytes. `SignResult`'s 27/28 `v` and its success condition, and `RecoverSender`'s 20-byte sender, rest on these.
- `__eq__` against an object of another class, and `__ne__`: every compared object here is a `Transaction`; `__ne__` is the negation of `Equals`.
- Integer fields are natural numbers: a negative Python integer would fail in RLP serialisation, which is not modelled.
- Keys are integers or byte strings, as under Python 2, where `''` and `b''` are the same value.
- Assigning fields directly from outside the class: only `sign` changes `v`, `r`, `s`.
- The unused constant `secpk1n` equals `bitcoin.N`; the model has the single constant `N`.
