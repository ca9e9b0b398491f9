/**
The record a coin's output is parsed into, and the address that is taken from the output when it is
received and from the record when it is spent. The hash of keys and scripts is a parameter.
 */
module ScriptRecord {
  import opened ByteData
  import opened Wrappers
  import opened WireFormat
  import opened LinkedOutputs

  const OP_0: Byte := 0
  const OP_PUSH20: Byte := 0x14
  const OP_PUSH32: Byte := 0x20
  const OP_PUSH_33: Byte := 0x21
  const OP_PUSH_65: Byte := 0x41
  const OP_1: Byte := 0x51
  const OP_16: Byte := 0x60
  const OP_RETURN: Byte := 0x6A
  const OP_DUP: Byte := 0x76
  const OP_EQUAL: Byte := 0x87
  const OP_EQUALVERIFY: Byte := 0x88
  const OP_HASH160: Byte := 0xA9
  const OP_CHECKSIG: Byte := 0xAC
  const OP_CHECKMULTISIG: Byte := 0xAE

  // ---- bare multisig ---------------------------------------------------------------------------------

  predicate IsKey(push: Byte) { push == 33 || push == 65 }

  /** Where the key pushes from an offset end: `bareMultisigSize`'s walk, with the end of the bytes as a stop. */
  function KeysEnd(s: Data, offset: nat): (end: nat)
    ensures end >= offset
    decreases |s| - offset
  {
    if offset < |s| && IsKey(s[offset]) then KeysEnd(s, offset + 1 + s[offset] as nat) else offset
  }

  /** How many key pushes fill the script from an offset to `end` exactly, if they do. */
  function Keys(s: Data, offset: nat, end: nat): Option<nat>
    requires end <= |s|
    decreases end - offset
  {
    if offset >= end then (if offset == end then Some(0) else None)
    else if !IsKey(s[offset]) then None
    else
      match Keys(s, offset + 1 + s[offset] as nat, end)
      case None => None
      case Some(n) => Some(n + 1)
  }

  /** `isBareMultisig`. */
  predicate BareMultisig(s: Data) {
    && |s| >= 37 && s[|s| - 1] == OP_CHECKMULTISIG
    && OP_1 <= s[0] <= OP_16 && OP_1 <= s[|s| - 2] <= OP_16 && s[0] <= s[|s| - 2]
    && Keys(s, 1, |s| - 2) == Some((s[|s| - 2] - OP_1) as nat + 1)
  }

  method IsBareMultisig(s: Data) returns (ok: bool)
    ensures ok == BareMultisig(s)
  {
    if |s| < 37 || s[|s| - 1] != OP_CHECKMULTISIG {
      return false;
    }
    var m, n := s[0], s[|s| - 2];
    if m < OP_1 || m > OP_16 || n < OP_1 || n > OP_16 || m > n {
      return false;
    }
    var keys, offset := 0, 1;
    while offset < |s| - 2
      invariant offset >= 0 && keys >= 0
      invariant Keys(s, 1, |s| - 2) == if Keys(s, offset, |s| - 2) == None then None
          else Some(keys + Keys(s, offset, |s| - 2).value)
      decreases |s| - offset
    {
      var push := s[offset];
      if !IsKey(push) {
        return false;
      }
      offset := offset + 1 + push as nat;
      keys := keys + 1;
    }
    ok := offset == |s| - 2 && keys == (n - OP_1) as nat + 1;
  }

  method BareMultisigSize(s: Data) returns (size: nat)
    requires KeysEnd(s, 1) < |s|
    ensures size == KeysEnd(s, 1) + 2
  {
    var offset := 1;
    while IsKey(s[offset])
      invariant 0 <= offset < |s| && KeysEnd(s, offset) == KeysEnd(s, 1)
      decreases |s| - offset
    {
      assert KeysEnd(s, offset + 1 + s[offset] as nat) == KeysEnd(s, 1);
      offset := offset + 1 + s[offset] as nat;
    }
    size := offset + 2;
  }

  /** Bytes after the keys do not move their end, when it is a byte that is no key push. */
  lemma {:induction false} KeysEndAt(s: Data, pad: Data, offset: nat, end: nat)
    requires offset <= end < |s| && Keys(s, offset, end).Some? && !IsKey(s[end])
    ensures KeysEnd(s + pad, offset) == end
    decreases end - offset
  {
    if offset < end {
      KeysEndAt(s, pad, offset + 1 + s[offset] as nat, end);
      assert (s + pad)[offset] == s[offset];
    } else {
      assert (s + pad)[offset] == s[offset];
    }
  }

  /** The size of a bare multisig script is recovered from its bytes, whatever follows them. */
  lemma SizeRecovered(s: Data, pad: Data)
    requires BareMultisig(s)
    ensures KeysEnd(s + pad, 1) + 2 == |s|
  {
    KeysEndAt(s, pad, 1, |s| - 2);
  }

  // ---- addresses of outputs ----------------------------------------------------------------------------

  /** `EType`, by its stored number. */
  const NON_STANDARD: nat := 0
  const NULL_DATA: nat := 1
  const PUB_KEY: nat := 2
  const PUB_KEY_HASH: nat := 3
  const SCRIPT_HASH: nat := 4
  const WITNESS_PUB_KEY_HASH: nat := 5
  const WITNESS_SCRIPT_HASH: nat := 6
  const WITNESS_TAPROOT: nat := 7
  const MULTISIG: nat := 8

  type Hash = Data -> Data

  /** Data is padded with zeros to thirty-two bytes: addresses are compared as bytes. */
  datatype Address = Address(kind: nat, data: Data)

  function Set(kind: nat, data: Data): Address {
    Address(kind, if |data| <= 32 then data + Zeros(32 - |data|) else data)
  }

  predicate PayToPubKeyHash(s: Data) {
    |s| == 25 && s[0] == OP_DUP && s[1] == OP_HASH160 && s[2] == OP_PUSH20 && s[23] == OP_EQUALVERIFY
        && s[24] == OP_CHECKSIG
  }

  predicate PayToScriptHash(s: Data) { |s| == 23 && s[0] == OP_HASH160 && s[1] == OP_PUSH20 && s[22] == OP_EQUAL }

  predicate Witness(s: Data, version: Byte, push: Byte) { |s| == 2 + push as nat && s[0] == version && s[1] == push }

  predicate PayToKey(s: Data, push: Byte) { |s| == 2 + push as nat && s[0] == push && s[|s| - 1] == OP_CHECKSIG }

  /** `extractAddress` of an output. */
  function AddressOfOutput(hash: Hash, s: Data): Option<Address> {
    if PayToPubKeyHash(s) then Some(Set(PUB_KEY_HASH, s[3..23]))
    else if PayToScriptHash(s) then Some(Set(SCRIPT_HASH, s[2..22]))
    else if Witness(s, OP_0, OP_PUSH20) then Some(Set(WITNESS_PUB_KEY_HASH, s[2..22]))
    else if Witness(s, OP_0, OP_PUSH32) then Some(Set(WITNESS_SCRIPT_HASH, s[2..34]))
    else if Witness(s, OP_1, OP_PUSH32) then Some(Set(WITNESS_TAPROOT, s[2..34]))
    else if PayToKey(s, OP_PUSH_33) then Some(Set(PUB_KEY_HASH, hash(s[1..34])))
    else if PayToKey(s, OP_PUSH_65) then Some(Set(PUB_KEY_HASH, hash(s[1..66])))
    else if BareMultisig(s) then Some(Set(MULTISIG, hash(s)))
    else None
  }

  // ---- the record ------------------------------------------------------------------------------------------

  const RECORD_SIZE: nat := 42
  const COMPRESSED: nat := 32

  /** A record of a flags byte, the amount and the union, whole even when the data is shorter. */
  function Whole(flags: nat, value: Data, data: Data): (r: Record)
    requires flags < 256 && |value| == 8
    ensures |r| >= RECORD_SIZE && |r| >= TAIL_OFFSET + |data| && r[0] == flags as Byte && r[1..TAIL_OFFSET] == value
    ensures r[TAIL_OFFSET..] == data + Zeros(|r| - TAIL_OFFSET - |data|)
  {
    var r := [flags as Byte] + value + data + Zeros(if |data| < 33 then 33 - |data| else 0);
    assert r[1..TAIL_OFFSET] == value;
    assert r[TAIL_OFFSET..] == data + Zeros(|r| - TAIL_OFFSET - |data|);
    r
  }

  /** `parseTransactionOutput`. */
  function Parse(s: Data, value: Data): (r: Record)
    requires |value| == 8
    ensures |r| >= RECORD_SIZE && r[1..TAIL_OFFSET] == value && (r[0] == 0 || r[0] == 8 ==> |r| >= TAIL_OFFSET + |s|)
  {
    if |s| >= 1 && s[0] == OP_RETURN then Whole(NULL_DATA, value, [])
    else if PayToKey(s, OP_PUSH_33) then Whole(PUB_KEY + COMPRESSED, value, s[1..34])
    else if PayToKey(s, OP_PUSH_65) then Whole(PUB_KEY, value, s[1..66])
    else if PayToPubKeyHash(s) then Whole(PUB_KEY_HASH, value, s[3..23])
    else if PayToScriptHash(s) then Whole(SCRIPT_HASH, value, s[2..22])
    else if Witness(s, OP_0, OP_PUSH20) then Whole(WITNESS_PUB_KEY_HASH, value, s[2..22])
    else if Witness(s, OP_0, OP_PUSH32) then Whole(WITNESS_SCRIPT_HASH, value, s[2..34])
    else if Witness(s, OP_1, OP_PUSH32) then Whole(WITNESS_TAPROOT, value, s[2..34])
    else Whole(if BareMultisig(s) then MULTISIG else NON_STANDARD, value, s)
  }

  function Kind(r: Record): nat { r[0] as nat % 16 }

  predicate IsCompressed(r: Record) { r[0] as nat / 32 % 2 == 1 }

  /** The union holds what the type says: every read of the second `extractAddress` stays inside the record. */
  predicate Readable(r: Record) {
    && |r| >= RECORD_SIZE
    && (Kind(r) == PUB_KEY && !IsCompressed(r) ==> |r| >= TAIL_OFFSET + 65)
    && (Kind(r) == MULTISIG ==> KeysEnd(r[TAIL_OFFSET..], 1) + 2 <= |r| - TAIL_OFFSET)
  }

  /** `extractAddress` of a record. */
  function AddressOfRecord(hash: Hash, r: Record): Option<Address>
    requires Readable(r)
  {
    var u := r[TAIL_OFFSET..];
    if Kind(r) == PUB_KEY then Some(Set(PUB_KEY_HASH, hash(if IsCompressed(r) then u[..33] else u[..65])))
    else if Kind(r) == PUB_KEY_HASH then Some(Set(PUB_KEY_HASH, u[..20]))
    else if Kind(r) == SCRIPT_HASH then Some(Set(SCRIPT_HASH, u[..20]))
    else if Kind(r) == WITNESS_PUB_KEY_HASH then Some(Set(WITNESS_PUB_KEY_HASH, u[..20]))
    else if Kind(r) == WITNESS_SCRIPT_HASH then Some(Set(WITNESS_SCRIPT_HASH, u[..32]))
    else if Kind(r) == WITNESS_TAPROOT then Some(Set(WITNESS_TAPROOT, u[..32]))
    else if Kind(r) == MULTISIG then Some(Set(MULTISIG, hash(u[..KeysEnd(u, 1) + 2])))
    else None
  }

  // ---- one address for both ---------------------------------------------------------------------------------

  lemma UnionHolds(flags: nat, value: Data, data: Data)
    requires flags < 256 && |value| == 8
    ensures Whole(flags, value, data)[TAIL_OFFSET..][..|data|] == data
  {
  }

  lemma Multisig(hash: Hash, s: Data, value: Data)
    requires |value| == 8 && BareMultisig(s)
    ensures
      var r := Whole(MULTISIG, value, s);
      Readable(r) && AddressOfRecord(hash, r) == Some(Set(MULTISIG, hash(s)))
  {
    var r := Whole(MULTISIG, value, s);
    SizeRecovered(s, Zeros(|r| - TAIL_OFFSET - |s|));
    UnionHolds(MULTISIG, value, s);
  }

  lemma PlainRecord(hash: Hash, kind: nat, value: Data, data: Data)
    requires |value| == 8
    requires (PUB_KEY_HASH <= kind <= WITNESS_PUB_KEY_HASH && |data| == 20)
        || (WITNESS_SCRIPT_HASH <= kind <= WITNESS_TAPROOT && |data| == 32)
    ensures
      var r := Whole(kind, value, data);
      Readable(r) && AddressOfRecord(hash, r) == Some(Set(kind, data))
  {
    UnionHolds(kind, value, data);
  }

  lemma KeyRecord(hash: Hash, value: Data, key: Data)
    requires |value| == 8 && (|key| == 33 || |key| == 65)
    ensures
      var r := Whole(if |key| == 33 then PUB_KEY + COMPRESSED else PUB_KEY, value, key);
      Readable(r) && AddressOfRecord(hash, r) == Some(Set(PUB_KEY_HASH, hash(key)))
  {
    UnionHolds(if |key| == 33 then PUB_KEY + COMPRESSED else PUB_KEY, value, key);
  }

  lemma NoAddress(hash: Hash, kind: nat, value: Data, data: Data)
    requires |value| == 8 && kind <= NULL_DATA
    ensures
      var r := Whole(kind, value, data);
      Readable(r) && AddressOfRecord(hash, r) == None
  {
  }

  /** The address spent from is the address received on: of an output and of the record it is parsed into. */
  lemma SameAddress(hash: Hash, s: Data, value: Data)
    requires |value| == 8
    ensures Readable(Parse(s, value)) && AddressOfRecord(hash, Parse(s, value)) == AddressOfOutput(hash, s)
  {
    if |s| >= 1 && s[0] == OP_RETURN {
      NoAddress(hash, NULL_DATA, value, []);
    } else if PayToKey(s, OP_PUSH_33) {
      KeyRecord(hash, value, s[1..34]);
    } else if PayToKey(s, OP_PUSH_65) {
      KeyRecord(hash, value, s[1..66]);
    } else if PayToPubKeyHash(s) {
      PlainRecord(hash, PUB_KEY_HASH, value, s[3..23]);
    } else if PayToScriptHash(s) {
      PlainRecord(hash, SCRIPT_HASH, value, s[2..22]);
    } else if Witness(s, OP_0, OP_PUSH20) {
      PlainRecord(hash, WITNESS_PUB_KEY_HASH, value, s[2..22]);
    } else if Witness(s, OP_0, OP_PUSH32) {
      PlainRecord(hash, WITNESS_SCRIPT_HASH, value, s[2..34]);
    } else if Witness(s, OP_1, OP_PUSH32) {
      PlainRecord(hash, WITNESS_TAPROOT, value, s[2..34]);
    } else if BareMultisig(s) {
      Multisig(hash, s, value);
    } else {
      NoAddress(hash, NON_STANDARD, value, s);
    }
  }

  /** Scripts whose record has a length a compact size can say: data carriers keep none of theirs. */
  predicate Storable(s: Data) { TAIL_OFFSET + |s| <= MAX_SERIALIZED_SIZE || (s != [] && s[0] == OP_RETURN) }

  lemma ParseIsShort(s: Data, value: Data)
    requires |value| == 8
    ensures Short(Parse(s, value)) <==> Storable(s)
  {
  }

  /** And it survives the record's being stored and read back, which is so exactly when the record can be. */
  lemma SameAddressStored(hash: Hash, s: Data, value: Data, rest: Data)
    requires |value| == 8
    ensures
      var read := ReadOutput(WriteOutput(Parse(s, value)) + rest);
      && (read == Some(Parsed(Parse(s, value), rest)) <==> Storable(s))
      && (Storable(s) ==>
           Readable(read.value.value) && AddressOfRecord(hash, read.value.value) == AddressOfOutput(hash, s))
  {
    SameAddress(hash, s, value);
    ParseIsShort(s, value);
    OutputReadsBack(Parse(s, value), rest);
  }
}
