/**
Which script has which address, script bytes written out: the seven fixed forms around any hash or key, and
bare multisig around any list of keys. Scripts of no such form have none; and the record of a script holds the
kind of its form and what the form wraps.
 */
module ScriptForms {
  import opened ByteData
  import opened Wrappers
  import opened ScriptRecord

  datatype Form =
    | KeyHash(hash: Data)
    | ScriptHash(hash: Data)
    | WitnessKeyHash(hash: Data)
    | WitnessScriptHash(hash: Data)
    | Taproot(key: Data)
    | PublicKey(key: Data)
    | KeysOf(m: nat, keys: seq<Data>)

  predicate KeySized(key: Data) { |key| == 33 || |key| == 65 }

  /** Hashes and keys of their sizes; m of n keys, n at most sixteen. */
  predicate Sized(f: Form) {
    match f
    case KeyHash(h) => |h| == 20
    case ScriptHash(h) => |h| == 20
    case WitnessKeyHash(h) => |h| == 20
    case WitnessScriptHash(h) => |h| == 32
    case Taproot(k) => |k| == 32
    case PublicKey(k) => KeySized(k)
    case KeysOf(m, keys) => 1 <= m <= |keys| <= 16 && forall k :: 0 <= k < |keys| ==> KeySized(keys[k])
  }

  function Push(key: Data): Data
    requires KeySized(key)
  {
    [|key| as Byte] + key
  }

  /** Each key behind its length. */
  function Pushes(keys: seq<Data>): Data
    requires forall k :: 0 <= k < |keys| ==> KeySized(keys[k])
  {
    if keys == [] then []
    else
      assert KeySized(keys[0]);
      Push(keys[0]) + Pushes(keys[1..])
  }

  function Written(f: Form): Data
    requires Sized(f)
  {
    match f
    case KeyHash(h) => [0x76, 0xA9, 0x14] + h + [0x88, 0xAC]
    case ScriptHash(h) => [0xA9, 0x14] + h + [0x87]
    case WitnessKeyHash(h) => [0x00, 0x14] + h
    case WitnessScriptHash(h) => [0x00, 0x20] + h
    case Taproot(k) => [0x51, 0x20] + k
    case PublicKey(k) => [|k| as Byte] + k + [0xAC]
    case KeysOf(m, keys) => [(0x50 + m) as Byte] + (Pushes(keys) + [(0x50 + |keys|) as Byte, 0xAE])
  }

  /** Zeros up to thirty-two bytes. */
  function Padded(data: Data): Data { if |data| < 32 then data + seq(32 - |data|, _ => 0) else data }

  /** A key pays to its hash; keys together pay to the hash of their script. */
  function AddressIs(hash: Hash, f: Form): Address
    requires Sized(f)
  {
    match f
    case KeyHash(h) => Address(3, Padded(h))
    case ScriptHash(h) => Address(4, Padded(h))
    case WitnessKeyHash(h) => Address(5, Padded(h))
    case WitnessScriptHash(h) => Address(6, h)
    case Taproot(k) => Address(7, k)
    case PublicKey(k) => Address(3, Padded(hash(k)))
    case KeysOf(_, _) => Address(8, Padded(hash(Written(f))))
  }

  // ---- bare multisig -------------------------------------------------------------------------------

  lemma KeysMore(s: Data, offset: nat, end: nat)
    requires offset < end <= |s| && IsKey(s[offset]) && Keys(s, offset + 1 + s[offset] as nat, end).Some?
    ensures Keys(s, offset, end) == Some(Keys(s, offset + 1 + s[offset] as nat, end).value + 1)
  {
  }

  lemma {:induction false} PushesAreKeys(s: Data, keys: seq<Data>, offset: nat)
    requires forall k :: 0 <= k < |keys| ==> KeySized(keys[k])
    requires offset + |Pushes(keys)| <= |s| && s[offset..offset + |Pushes(keys)|] == Pushes(keys)
    ensures Keys(s, offset, offset + |Pushes(keys)|) == Some(|keys|)
    decreases |keys|
  {
    if keys != [] {
      hide Keys;
      assert KeySized(keys[0]);
      var push, end := Push(keys[0]), offset + |Pushes(keys)|;
      var next := offset + |push|;
      assert s[offset] == s[offset..end][0] == |keys[0]| as Byte;
      assert s[next..end] == s[offset..end][|push|..] == Pushes(keys[1..]);
      PushesAreKeys(s, keys[1..], next);
      KeysMore(s, offset, end);
    }
  }

  lemma MultisigIs(m: nat, keys: seq<Data>)
    requires Sized(KeysOf(m, keys))
    ensures BareMultisig(Written(KeysOf(m, keys)))
  {
    var s := Written(KeysOf(m, keys));
    assert s[1..1 + |Pushes(keys)|] == Pushes(keys);
    PushesAreKeys(s, keys, 1);
    PushesLong(keys);
  }

  lemma PushesLong(keys: seq<Data>)
    requires keys != [] && forall k :: 0 <= k < |keys| ==> KeySized(keys[k])
    ensures |Pushes(keys)| >= 34
  {
    assert KeySized(keys[0]);
  }

  /** The keys of a stretch that is filled by key pushes. */
  lemma {:induction false} KeysBack(s: Data, offset: nat, end: nat) returns (keys: seq<Data>)
    requires offset <= end <= |s| && Keys(s, offset, end).Some?
    ensures (forall k :: 0 <= k < |keys| ==> KeySized(keys[k])) && |keys| == Keys(s, offset, end).value
    ensures s[offset..end] == Pushes(keys)
    decreases end - offset
  {
    if offset == end {
      keys := [];
    } else {
      var next := offset + 1 + s[offset] as nat;
      assert Keys(s, next, end).Some?;
      var more := KeysBack(s, next, end);
      keys := [s[offset + 1..next]] + more;
      assert keys[1..] == more && Push(keys[0]) == [s[offset]] + s[offset + 1..next];
      assert s[offset..end] == ([s[offset]] + s[offset + 1..next]) + s[next..end];
    }
  }

  lemma MultisigBack(s: Data) returns (f: Form)
    requires BareMultisig(s)
    ensures f.KeysOf? && Sized(f) && s == Written(f)
  {
    var keys := KeysBack(s, 1, |s| - 2);
    f := KeysOf((s[0] - 0x50) as nat, keys);
    assert s == [s[0]] + (s[1..|s| - 2] + [s[|s| - 2], s[|s| - 1]]);
  }

  // ---- addresses -----------------------------------------------------------------------------------

  lemma PaddedIs(kind: nat, data: Data)
    ensures Set(kind, data) == Address(kind, Padded(data))
  {
  }

  /** Every script of a form has the address of that form. */
  lemma FormHasAddress(hash: Hash, f: Form)
    requires Sized(f)
    ensures AddressOfOutput(hash, Written(f)) == Some(AddressIs(hash, f))
  {
    var s := Written(f);
    match f
    case KeyHash(h) => assert s[3..23] == h; PaddedIs(3, h);
    case ScriptHash(h) => assert s[2..22] == h; PaddedIs(4, h);
    case WitnessKeyHash(h) => assert s[2..22] == h; PaddedIs(5, h);
    case WitnessScriptHash(h) => assert s[2..34] == h; PaddedIs(6, h);
    case Taproot(k) => assert s[2..34] == k; PaddedIs(7, k);
    case PublicKey(k) => assert s[1..|k| + 1] == k; PaddedIs(3, hash(k));
    case KeysOf(m, keys) => MultisigIs(m, keys); PaddedIs(8, hash(s));
  }

  lemma HashHasForm(s: Data) returns (f: Form)
    requires PayToPubKeyHash(s) || PayToScriptHash(s)
    ensures Sized(f) && s == Written(f)
  {
    if PayToPubKeyHash(s) {
      f := KeyHash(s[3..23]);
      assert s == s[..3] + s[3..23] + s[23..];
    } else {
      f := ScriptHash(s[2..22]);
      assert s == s[..2] + s[2..22] + s[22..];
    }
  }

  lemma WitnessHasForm(s: Data) returns (f: Form)
    requires Witness(s, OP_0, OP_PUSH20) || Witness(s, OP_0, OP_PUSH32) || Witness(s, OP_1, OP_PUSH32)
    ensures Sized(f) && s == Written(f)
  {
    var rest := s[2..];
    f := if |s| == 22 then WitnessKeyHash(rest) else if s[0] == 0 then WitnessScriptHash(rest) else Taproot(rest);
    assert s == [s[0], s[1]] + rest;
  }

  lemma KeyHasForm(s: Data) returns (f: Form)
    requires PayToKey(s, OP_PUSH_33) || PayToKey(s, OP_PUSH_65)
    ensures Sized(f) && s == Written(f)
  {
    f := PublicKey(s[1..|s| - 1]);
    assert s == [s[0]] + s[1..|s| - 1] + [s[|s| - 1]];
  }

  /** And every script that has an address is of a form. */
  lemma AddressHasForm(hash: Hash, s: Data) returns (f: Form)
    requires AddressOfOutput(hash, s).Some?
    ensures Sized(f) && s == Written(f)
  {
    hide Written, PayToPubKeyHash, PayToScriptHash, Witness, PayToKey, BareMultisig;
    if PayToPubKeyHash(s) || PayToScriptHash(s) {
      f := HashHasForm(s);
    } else if Witness(s, OP_0, OP_PUSH20) || Witness(s, OP_0, OP_PUSH32) || Witness(s, OP_1, OP_PUSH32) {
      f := WitnessHasForm(s);
    } else if PayToKey(s, OP_PUSH_33) || PayToKey(s, OP_PUSH_65) {
      f := KeyHasForm(s);
    } else {
      f := MultisigBack(s);
    }
  }

  /** A script has an address exactly when it is of one of the forms. */
  lemma NoFormNoAddress(hash: Hash, s: Data)
    ensures AddressOfOutput(hash, s) == None <==> forall f :: Sized(f) ==> s != Written(f)
  {
    if AddressOfOutput(hash, s).Some? {
      var f := AddressHasForm(hash, s);
    } else {
      forall f | Sized(f) ensures s != Written(f) {
        FormHasAddress(hash, f);
      }
    }
  }

  // ---- records -------------------------------------------------------------------------------------

  /** A flags byte, the amount, and what the kind keeps, with zeros up to forty-two bytes. */
  function Bytes(flags: Byte, value: Data, data: Data): Data {
    [flags] + value + data + if |data| < 33 then seq(33 - |data|, _ => 0) else []
  }

  lemma WholeIs(flags: nat, value: Data, data: Data)
    requires flags < 256 && |value| == 8
    ensures Whole(flags, value, data) == Bytes(flags as Byte, value, data)
  {
  }

  /** The kind in the low bits, thirty-two for a compressed key; and what is kept of the script. */
  function RecordIs(f: Form, value: Data): Data
    requires Sized(f)
  {
    match f
    case KeyHash(h) => Bytes(3, value, h)
    case ScriptHash(h) => Bytes(4, value, h)
    case WitnessKeyHash(h) => Bytes(5, value, h)
    case WitnessScriptHash(h) => Bytes(6, value, h)
    case Taproot(k) => Bytes(7, value, k)
    case PublicKey(k) => Bytes(if |k| == 33 then 34 else 2, value, k)
    case KeysOf(_, _) => Bytes(8, value, Written(f))
  }

  lemma FormHasRecord(f: Form, value: Data)
    requires Sized(f) && |value| == 8
    ensures Parse(Written(f), value) == RecordIs(f, value)
  {
    hide Whole, Bytes;
    var s := Written(f);
    match f
    case KeyHash(h) => assert s[3..23] == h; WholeIs(3, value, h);
    case ScriptHash(h) => assert s[2..22] == h; WholeIs(4, value, h);
    case WitnessKeyHash(h) => assert s[2..22] == h; WholeIs(5, value, h);
    case WitnessScriptHash(h) => assert s[2..34] == h; WholeIs(6, value, h);
    case Taproot(k) => assert s[2..34] == k; WholeIs(7, value, k);
    case PublicKey(k) => assert s[1..|k| + 1] == k; WholeIs(if |k| == 33 then 34 else 2, value, k);
    case KeysOf(m, keys) => MultisigIs(m, keys); WholeIs(8, value, s);
  }

  /** Of no form: a data carrier keeps nothing, any other script is kept whole. */
  lemma NoFormRecord(hash: Hash, s: Data, value: Data)
    requires |value| == 8 && forall f :: Sized(f) ==> s != Written(f)
    ensures Parse(s, value) == if s != [] && s[0] == 0x6A then Bytes(1, value, []) else Bytes(0, value, s)
  {
    NoFormNoAddress(hash, s);
    WholeIs(1, value, []);
    WholeIs(0, value, s);
  }
}
