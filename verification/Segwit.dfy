/**
Segwit addresses: a human-readable prefix, a version and a program written as Bech32 or Bech32m
text, and read back.
 */
module Segwit {
  import opened Sequences
  import opened Wrappers
  import opened BitGroups
  import opened Bech32

  /** `Charset`. */
  function Symbol(n: nat): char
    requires n < 32
  {
    if n == 0 then 'q'
    else if n == 1 then 'p'
    else if n == 2 then 'z'
    else if n == 3 then 'r'
    else if n == 4 then 'y'
    else if n == 5 then '9'
    else if n == 6 then 'x'
    else if n == 7 then '8'
    else if n == 8 then 'g'
    else if n == 9 then 'f'
    else if n == 10 then '2'
    else if n == 11 then 't'
    else if n == 12 then 'v'
    else if n == 13 then 'd'
    else if n == 14 then 'w'
    else if n == 15 then '0'
    else if n == 16 then 's'
    else if n == 17 then '3'
    else if n == 18 then 'j'
    else if n == 19 then 'n'
    else if n == 20 then '5'
    else if n == 21 then '4'
    else if n == 22 then 'k'
    else if n == 23 then 'h'
    else if n == 24 then 'c'
    else if n == 25 then 'e'
    else if n == 26 then '6'
    else if n == 27 then 'm'
    else if n == 28 then 'u'
    else if n == 29 then 'a'
    else if n == 30 then '7'
    else 'l'
  }

  function Lower(c: char): char { if 'A' <= c <= 'Z' then c - 'A' + 'a' else c }

  /** `CharsetRev`: either case, and none for a character outside the set. */
  function Rev(ch: char): Option<nat> {
    var c := Lower(ch);
    if c == 'q' then Some(0)
    else if c == 'p' then Some(1)
    else if c == 'z' then Some(2)
    else if c == 'r' then Some(3)
    else if c == 'y' then Some(4)
    else if c == '9' then Some(5)
    else if c == 'x' then Some(6)
    else if c == '8' then Some(7)
    else if c == 'g' then Some(8)
    else if c == 'f' then Some(9)
    else if c == '2' then Some(10)
    else if c == 't' then Some(11)
    else if c == 'v' then Some(12)
    else if c == 'd' then Some(13)
    else if c == 'w' then Some(14)
    else if c == '0' then Some(15)
    else if c == 's' then Some(16)
    else if c == '3' then Some(17)
    else if c == 'j' then Some(18)
    else if c == 'n' then Some(19)
    else if c == '5' then Some(20)
    else if c == '4' then Some(21)
    else if c == 'k' then Some(22)
    else if c == 'h' then Some(23)
    else if c == 'c' then Some(24)
    else if c == 'e' then Some(25)
    else if c == '6' then Some(26)
    else if c == 'm' then Some(27)
    else if c == 'u' then Some(28)
    else if c == 'a' then Some(29)
    else if c == '7' then Some(30)
    else if c == 'l' then Some(31)
    else None
  }

  lemma SymbolsRead(n: nat)
    requires n < 32
    ensures Rev(Symbol(n)) == Some(n) && ('0' <= Symbol(n) <= '9' || 'a' <= Symbol(n) <= 'z') && Symbol(n) != '1'
  {
  }

  lemma ReadsAreSymbols(c: char)
    ensures Rev(c).Some? ==> Rev(c).value < 32 && Symbol(Rev(c).value) == Lower(c)
  {
  }

  // ---- texts ------------------------------------------------------------------------------------

  function Symbols(vs: seq<nat>): (s: string)
    requires Below(vs, 32)
    ensures |s| == |vs|
  {
    if vs == [] then [] else [Symbol(vs[0])] + Symbols(vs[1..])
  }

  /** The values of a text, unless some character is outside the set. */
  function Values(s: string): (r: Option<seq<nat>>)
    ensures r.Some? ==> |r.value| == |s|
  {
    if s == [] then Some([]) else
      match (Rev(s[0]), Values(s[1..]))
      case (Some(v), Some(vs)) => Some([v] + vs)
      case _ => None
  }

  function LowerAll(s: string): (r: string)
    ensures |r| == |s| && forall i :: 0 <= i < |s| ==> r[i] == Lower(s[i])
  {
    seq(|s|, i requires 0 <= i < |s| => Lower(s[i]))
  }

  predicate Plain(s: string) { forall i :: 0 <= i < |s| ==> s[i] != '1' && ('0' <= s[i] <= '9' || 'a' <= s[i] <= 'z') }

  lemma {:induction false} ValuesOfSymbols(vs: seq<nat>)
    requires Below(vs, 32)
    ensures Values(Symbols(vs)) == Some(vs) && Plain(Symbols(vs))
  {
    if vs != [] {
      SymbolsRead(vs[0]);
      ValuesOfSymbols(vs[1..]);
      assert Symbols(vs)[1..] == Symbols(vs[1..]);
      assert vs == [vs[0]] + vs[1..];
    }
  }

  lemma {:induction false} SymbolsOfValues(s: string)
    requires Values(s).Some?
    ensures Below(Values(s).value, 32) && Symbols(Values(s).value) == LowerAll(s)
  {
    if s != [] {
      ReadsAreSymbols(s[0]);
      SymbolsOfValues(s[1..]);
      var v, vs := Rev(s[0]).value, Values(s[1..]).value;
      assert ([v] + vs)[1..] == vs;
      assert LowerAll(s) == [Lower(s[0])] + LowerAll(s[1..]);
    }
  }

  /** `rfind('1')`, or a negative number. */
  function LastOne(s: string): (p: int)
    ensures -1 <= p < |s| && (p >= 0 ==> s[p] == '1')
  {
    if s == [] then -1 else if s[|s| - 1] == '1' then |s| - 1 else LastOne(s[..|s| - 1])
  }

  lemma {:induction false} LastOneAt(front: string, tail: string)
    requires Plain(tail)
    ensures LastOne(front + "1" + tail) == |front|
    decreases |tail|
  {
    var s := front + "1" + tail;
    if tail == [] {
      assert s == front + "1";
    } else {
      var init := tail[..|tail| - 1];
      LastOneAt(front, init);
      assert s[..|s| - 1] == front + "1" + init;
      assert s[|s| - 1] == tail[|tail| - 1];
    }
  }

  function Tops(s: string): seq<nat> { seq(|s|, i requires 0 <= i < |s| => s[i] as nat / 32) }

  function Lows(s: string): seq<nat> { seq(|s|, i requires 0 <= i < |s| => s[i] as nat % 32) }

  /** `hrpExpand`. */
  function Expand(hrp: string): seq<nat> { Tops(hrp) + ([0] + Lows(hrp)) }

  predicate Printable(s: string) { forall i :: 0 <= i < |s| ==> 33 as char <= s[i] <= 126 as char }

  predicate IsUpper(c: char) { 'A' <= c <= 'Z' }

  predicate HasLower(s: string) { exists i :: 0 <= i < |s| && 'a' <= s[i] <= 'z' }

  predicate HasUpper(s: string) { exists i :: 0 <= i < |s| && IsUpper(s[i]) }

  // ---- a text with its checksum ------------------------------------------------------------------

  function CheckSymbols(hrp: string, values: seq<nat>, constant: Bits): (six: seq<nat>)
    requires |constant| == 30
    ensures |six| == 6 && Below(six, 32)
  {
    SixOf(Checksum(Expand(hrp) + values, constant));
    Groups(Checksum(Expand(hrp) + values, constant), 5)
  }

  /** `encode`. */
  function Encode(hrp: string, values: seq<nat>, constant: Bits): (s: string)
    requires |constant| == 30 && Below(values, 32)
    ensures |s| == |hrp| + 7 + |values|
  {
    hrp + "1" + Symbols(values + CheckSymbols(hrp, values, constant))
  }

  datatype Text = Text(hrp: string, values: seq<nat>, constant: Bits)

  /** `decode`'s checks of the characters, and where the prefix ends. */
  predicate Formed(address: string) {
    && |address| <= 90 && Printable(address) && !(HasLower(address) && HasUpper(address))
    && 0 < LastOne(address) && LastOne(address) + 7 <= |address|
  }

  /** The end of `decode`: the checksum evaluated, and its symbols dropped. */
  function Checked(hrp: string, vs: seq<nat>): (r: Option<Text>)
    requires |vs| >= 6
    ensures r.Some? ==> |r.value.constant| == 30
  {
    var mod := Fold(Word(1), Expand(hrp) + vs);
    if mod != BECH32 && mod != BECH32M then None else Some(Text(hrp, vs[..|vs| - 6], mod))
  }

  /** `decode`. */
  function Decode(address: string): (r: Option<Text>)
    ensures r.Some? ==> |r.value.constant| == 30
  {
    if !Formed(address) then None else
    var pos := LastOne(address);
    match Values(address[pos + 1..])
    case None => None
    case Some(vs) => Checked(LowerAll(address[..pos]), vs)
  }

  predicate GoodPrefix(hrp: string) { hrp != [] && Printable(hrp) && !HasUpper(hrp) }

  lemma WrittenChecks(hrp: string, values: seq<nat>, constant: Bits)
    requires |constant| == 30
    ensures Fold(Word(1), Expand(hrp) + (values + CheckSymbols(hrp, values, constant))) == constant
  {
    var six := CheckSymbols(hrp, values, constant);
    ChecksumIsExact(Expand(hrp) + values, constant, six);
    Assoc(Expand(hrp), values, six);
  }

  lemma CheckedWritten(hrp: string, values: seq<nat>, constant: Bits)
    requires constant == BECH32 || constant == BECH32M
    ensures Checked(hrp, values + CheckSymbols(hrp, values, constant)) == Some(Text(hrp, values, constant))
  {
    var all := values + CheckSymbols(hrp, values, constant);
    WrittenChecks(hrp, values, constant);
    assert all[..|all| - 6] == values;
  }

  lemma CheckedIsWritten(hrp: string, vs: seq<nat>)
    requires |vs| >= 6 && Below(vs, 32) && Checked(hrp, vs).Some?
    ensures
      var t := Checked(hrp, vs).value;
      t.hrp == hrp && Below(t.values, 32) && vs == t.values + CheckSymbols(hrp, t.values, t.constant)
  {
    var values, six := vs[..|vs| - 6], vs[|vs| - 6..];
    assert vs == values + six;
    Assoc(Expand(hrp), values, six);
    ChecksumIsExact(Expand(hrp) + values, Checked(hrp, vs).value.constant, six);
  }

  lemma LowerKeeps(hrp: string)
    ensures LowerAll(hrp) == hrp <==> !HasUpper(hrp)
  {
    assert forall i :: 0 <= i < |hrp| ==> (LowerAll(hrp)[i] == hrp[i] <==> !('A' <= hrp[i] <= 'Z'));
  }

  lemma WrittenIsFormed(hrp: string, tail: string)
    requires Plain(tail) && |tail| >= 6
    ensures
      var s := hrp + "1" + tail;
      Formed(s) <==> hrp != [] && Printable(hrp) && |s| <= 90 && (HasUpper(hrp) ==> !HasLower(s))
  {
    var s := hrp + "1" + tail;
    LastOneAt(hrp, tail);
    assert forall i :: 0 <= i < |hrp| ==> s[i] == hrp[i];
    assert forall i :: |hrp| < i < |s| ==> s[i] == tail[i - |hrp| - 1];
    assert Printable(s) <==> Printable(hrp);
    assert HasUpper(s) <==> HasUpper(hrp);
  }

  lemma DecodeWritten(hrp: string, all: seq<nat>)
    requires |all| >= 6 && Below(all, 32)
    ensures
      var s := hrp + "1" + Symbols(all);
      Decode(s) == if Formed(s) then Checked(LowerAll(hrp), all) else None
  {
    var tail := Symbols(all);
    var s := hrp + "1" + tail;
    ValuesOfSymbols(all);
    LastOneAt(hrp, tail);
    assert s[..|hrp|] == hrp && s[|hrp| + 1..] == tail;
  }

  /** Text read back is the text written exactly when the prefix can be read back and all of it fits. */
  lemma DecodeOfEncode(hrp: string, values: seq<nat>, constant: Bits)
    requires (constant == BECH32 || constant == BECH32M) && Below(values, 32)
    ensures Decode(Encode(hrp, values, constant)) == Some(Text(hrp, values, constant)) <==>
        GoodPrefix(hrp) && |hrp| + 7 + |values| <= 90
  {
    hide CheckSymbols;
    var all := values + CheckSymbols(hrp, values, constant);
    ValuesOfSymbols(all);
    WrittenIsFormed(hrp, Symbols(all));
    DecodeWritten(hrp, all);
    LowerKeeps(hrp);
    CheckedWritten(hrp, values, constant);
  }

  /** A text that reads is, in lower case, the text written from what was read. */
  lemma EncodeOfDecode(address: string)
    requires Decode(address).Some?
    ensures
      var t := Decode(address).value;
      Below(t.values, 32) && LowerAll(address) == Encode(t.hrp, t.values, t.constant)
  {
    var pos := LastOne(address);
    SymbolsOfValues(address[pos + 1..]);
    CheckedIsWritten(LowerAll(address[..pos]), Values(address[pos + 1..]).value);
    LowerSplits(address, pos);
  }

  lemma LowerSplits(s: string, pos: nat)
    requires pos < |s| && s[pos] == '1'
    ensures LowerAll(s) == LowerAll(s[..pos]) + "1" + LowerAll(s[pos + 1..])
  {
  }

  // ---- the loops ------------------------------------------------------------------------------------

  /** The first loop of `decode`. */
  method CheckCase(address: string) returns (ok: bool)
    ensures ok <==> Printable(address) && !(HasLower(address) && HasUpper(address))
  {
    var hasLower, hasUpper := false, false;
    for i := 0 to |address|
      invariant Printable(address[..i]) && hasLower == HasLower(address[..i]) && hasUpper == HasUpper(address[..i])
    {
      var c := address[i];
      assert address[..i + 1] == address[..i] + [c];
      if c < 33 as char || c > 126 as char {
        return false;
      }
      HasMore(address[..i], c);
      hasLower := hasLower || 'a' <= c <= 'z';
      hasUpper := hasUpper || 'A' <= c <= 'Z';
    }
    assert address[..|address|] == address;
    ok := !(hasLower && hasUpper);
  }

  lemma HasMore(s: string, c: char)
    ensures HasLower(s + [c]) <==> HasLower(s) || 'a' <= c <= 'z'
    ensures HasUpper(s + [c]) <==> HasUpper(s) || 'A' <= c <= 'Z'
  {
    var t := s + [c];
    assert t[|s|] == c;
    assert forall i :: 0 <= i < |s| ==> t[i] == s[i];
  }

  lemma {:induction false} ValuesMore(s: string, c: char)
    ensures Values(s + [c]) == if Values(s).Some? && Rev(c).Some? then Some(Values(s).value + [Rev(c).value]) else None
  {
    if s == [] {
      assert s + [c] == [c] && [c][1..] == [];
      assert Values([]) == Some([]);
      var none: seq<nat> := [];
      assert Rev(c).Some? ==> [Rev(c).value] + none == none + [Rev(c).value];
    } else {
      ValuesMore(s[1..], c);
      assert (s + [c])[1..] == s[1..] + [c];
      if Values(s + [c]).Some? {
        assert [Rev(s[0]).value] + (Values(s[1..]).value + [Rev(c).value])
            == ([Rev(s[0]).value] + Values(s[1..]).value) + [Rev(c).value];
      }
    }
  }

  lemma {:induction false} ValuesStop(s: string, n: nat)
    requires n <= |s| && Values(s[..n]) == None
    ensures Values(s) == None
    decreases |s| - n
  {
    if n == |s| {
      assert s[..n] == s;
    } else {
      assert s[..n + 1] == s[..n] + [s[n]];
      ValuesMore(s[..n], s[n]);
      ValuesStop(s, n + 1);
    }
  }

  method ReadValues(s: string) returns (r: Option<seq<nat>>)
    ensures r == Values(s)
  {
    var values: seq<nat> := [];
    assert s[..0] == [];
    for i := 0 to |s|
      invariant Values(s[..i]) == Some(values)
    {
      assert s[..i + 1] == s[..i] + [s[i]];
      ValuesMore(s[..i], s[i]);
      var rev := Rev(s[i]);
      if rev == None {
        ValuesStop(s, i + 1);
        return None;
      }
      values := values + [rev.value];
    }
    assert s[..|s|] == s;
    r := Some(values);
  }

  method ToLower(s: string) returns (r: string)
    ensures r == LowerAll(s)
  {
    r := [];
    for i := 0 to |s|
      invariant |r| == i && forall k :: 0 <= k < i ==> r[k] == Lower(s[k])
    {
      r := r + [Lower(s[i])];
    }
  }

  /** `decode`. */
  method DecodeText(address: string) returns (r: Option<Text>)
    ensures r == Decode(address)
  {
    if |address| > 90 {
      return None;
    }
    var ok := CheckCase(address);
    var pos := LastOne(address);
    if !ok || pos <= 0 || pos + 7 > |address| {
      return None;
    }
    var hrp := ToLower(address[..pos]);
    var values := ReadValues(address[pos + 1..]);
    if values == None {
      return None;
    }
    var vs := values.value;
    var mod := Polymod(Expand(hrp) + vs);
    if mod != BECH32 && mod != BECH32M {
      return None;
    }
    r := Some(Text(hrp, vs[..|vs| - 6], mod));
  }

  lemma {:induction false} SymbolsMore(vs: seq<nat>, v: nat)
    requires Below(vs, 32) && v < 32
    ensures Below(vs + [v], 32) && Symbols(vs + [v]) == Symbols(vs) + [Symbol(v)]
  {
    if vs == [] {
      assert [] + [v] == [v];
    } else {
      SymbolsMore(vs[1..], v);
      assert (vs + [v])[1..] == vs[1..] + [v];
    }
  }

  method WriteSymbols(text: string, vs: seq<nat>) returns (r: string)
    requires Below(vs, 32)
    ensures r == text + Symbols(vs)
  {
    r := text;
    assert vs[..0] == [] && text + [] == text;
    for i := 0 to |vs|
      invariant r == text + Symbols(vs[..i])
    {
      assert vs[..i + 1] == vs[..i] + [vs[i]];
      SymbolsMore(vs[..i], vs[i]);
      assert (text + Symbols(vs[..i])) + [Symbol(vs[i])] == text + (Symbols(vs[..i]) + [Symbol(vs[i])]);
      r := r + [Symbol(vs[i])];
    }
    assert vs[..|vs|] == vs;
  }

  /** `encode`. */
  method EncodeText(hrp: string, values: seq<nat>, constant: Bits) returns (r: string)
    requires |constant| == 30 && Below(values, 32)
    ensures r == Encode(hrp, values, constant)
  {
    var chk := Polymod(Expand(hrp) + values + Nothing(6));
    var six := Groups(Xor(chk, constant), 5);
    assert six == CheckSymbols(hrp, values, constant);
    r := WriteSymbols(hrp + "1", values);
    r := WriteSymbols(r, six);
    SymbolsJoin(values, six);
    Assoc(hrp + "1", Symbols(values), Symbols(six));
  }

  lemma {:induction false} SymbolsJoin(a: seq<nat>, b: seq<nat>)
    requires Below(a, 32) && Below(b, 32)
    ensures Below(a + b, 32) && Symbols(a + b) == Symbols(a) + Symbols(b)
  {
    if a == [] {
      assert a + b == b;
    } else {
      SymbolsJoin(a[1..], b);
      assert (a + b)[1..] == a[1..] + b;
    }
  }

  // ---- addresses ------------------------------------------------------------------------------------

  function Variant(version: nat): (c: Bits)
    ensures c == BECH32 || c == BECH32M
  {
    if version == 0 then BECH32 else BECH32M
  }

  lemma BelowSymbols(program: seq<nat>)
    ensures Below(Convert(program, 8, 5, true).value, 32)
  {
    var p := SymbolsAreBits(program);
  }

  function Payload(version: nat, program: seq<nat>): (vs: seq<nat>)
    requires version <= 16
    ensures Below(vs, 32)
  {
    BelowSymbols(program);
    [version] + Convert(program, 8, 5, true).value
  }

  /** `encodeSegwitAddress`: no text for a version or a size out of range. */
  function EncodeSegwit(hrp: string, version: nat, program: seq<nat>): string {
    if version > 16 || |program| < 2 || |program| > 40 then ""
    else Encode(hrp, Payload(version, program), Variant(version))
  }

  datatype Address = Address(version: nat, program: seq<nat>)

  /** The address in a text that was read. */
  function ReadAddress(hrp: string, t: Text): Option<Address> {
    if t.hrp != hrp || t.values == [] then None else
    var version := t.values[0];
    if version > 16 || t.constant != Variant(version) then None else
    match Convert(t.values[1..], 5, 8, false)
    case None => None
    case Some(program) =>
      if |program| < 2 || |program| > 40 || (version == 0 && |program| != 20 && |program| != 32) then None
      else Some(Address(version, program))
  }

  /** `decodeSegwitAddress`. */
  function DecodeSegwit(hrp: string, address: string): Option<Address> {
    match Decode(address)
    case None => None
    case Some(t) => ReadAddress(hrp, t)
  }

  predicate Legal(version: nat, program: seq<nat>) {
    version <= 16 && 2 <= |program| <= 40 && (version == 0 ==> |program| == 20 || |program| == 32)
  }

  /** The symbols of `n` bytes. */
  lemma PayloadLength(version: nat, program: seq<nat>)
    requires version <= 16
    ensures |Payload(version, program)| == 1 + (8 * |program| + 4) / 5
  {
    var vs := Convert(program, 8, 5, true).value;
    var p := SymbolsAreBits(program);
    FlattenLength(program, 8);
    FlattenLength(vs, 5);
  }

  /** The symbols written behind the prefix. */
  function Written(hrp: string, version: nat, program: seq<nat>): (all: seq<nat>)
    requires version <= 16
    ensures Below(all, 32) && |all| >= 6
  {
    var vs := Payload(version, program);
    vs + CheckSymbols(hrp, vs, Variant(version))
  }

  /** A prefix of printable characters with which the address fits. */
  predicate Fits(hrp: string, program: seq<nat>) {
    hrp != [] && Printable(hrp) && |hrp| + 8 + (8 * |program| + 4) / 5 <= 90
  }

  /** No capitals; or nothing but capitals, digits and signs, and a checksum that does not tell them apart. */
  predicate CaseSafe(hrp: string, version: nat, program: seq<nat>)
    requires version <= 16
  {
    || !HasUpper(hrp)
    || (&& !HasLower(hrp + "1" + Symbols(Written(hrp, version, program)))
        && Fold(Word(1), Expand(LowerAll(hrp)) + Written(hrp, version, program)) == Variant(version))
  }

  lemma WrittenLength(hrp: string, version: nat, program: seq<nat>)
    requires version <= 16
    ensures |Written(hrp, version, program)| == 7 + (8 * |program| + 4) / 5
  {
    PayloadLength(version, program);
  }

  /** What reading gives once the text is well formed: the checksum is all that can still fail. */
  lemma CheckedSegwit(hrp: string, lower: string, version: nat, program: seq<nat>)
    requires version <= 16
    ensures
      var all, vs := Written(hrp, version, program), Payload(version, program);
      var mod := Fold(Word(1), Expand(lower) + all);
      Checked(lower, all) == if mod == BECH32 || mod == BECH32M then Some(Text(lower, vs, mod)) else None
  {
    var all, vs := Written(hrp, version, program), Payload(version, program);
    assert all[..|all| - 6] == vs;
  }

  lemma ReadPayload(h: string, lower: string, version: nat, program: seq<nat>, mod: Bits)
    requires version <= 16 && 2 <= |program| <= 40 && Below(program, 256) && |mod| == 30
    ensures ReadAddress(h, Text(lower, Payload(version, program), mod))
         == if lower == h && mod == Variant(version) && Legal(version, program) then Some(Address(version, program))
             else None
  {
    var vs := Payload(version, program);
    RegroupingLosesNothing(program);
    assert vs[1..] == Convert(program, 8, 5, true).value;
  }

  /**
  Whatever prefix a reader asks for: it reads what was written exactly when that is the prefix in lower
  case, version and program are legal, the address fits and its case is safe; and otherwise nothing.
   */
  lemma SegwitReadsAs(h: string, hrp: string, version: nat, program: seq<nat>)
    requires Below(program, 256)
    ensures DecodeSegwit(h, EncodeSegwit(hrp, version, program))
         == if Legal(version, program) && Fits(hrp, program) && CaseSafe(hrp, version, program) && h == LowerAll(hrp)
            then Some(Address(version, program)) else None
  {
    if version <= 16 && 2 <= |program| <= 40 {
      var all := Written(hrp, version, program);
      var mod := Fold(Word(1), Expand(LowerAll(hrp)) + all);
      WrittenLength(hrp, version, program);
      ValuesOfSymbols(all);
      WrittenIsFormed(hrp, Symbols(all));
      DecodeWritten(hrp, all);
      CheckedSegwit(hrp, LowerAll(hrp), version, program);
      ReadPayload(h, LowerAll(hrp), version, program, mod);
      LowerKeeps(hrp);
      WrittenChecks(hrp, Payload(version, program), Variant(version));
    }
  }

  /** An address reads back as what it was written for exactly when a reader may accept it and it fits. */
  lemma SegwitReadsBack(hrp: string, version: nat, program: seq<nat>)
    requires Below(program, 256)
    ensures DecodeSegwit(hrp, EncodeSegwit(hrp, version, program)) == Some(Address(version, program))
       <==> Legal(version, program) && GoodPrefix(hrp) && |hrp| + 8 + (8 * |program| + 4) / 5 <= 90
  {
    SegwitReadsAs(hrp, hrp, version, program);
    LowerKeeps(hrp);
  }

  /** A prefix whose capitals lie among six neighbouring characters: no reader of any prefix accepts the address. */
  lemma CapitalsAreCaught(h: string, hrp: string, version: nat, program: seq<nat>, k: nat)
    requires Below(program, 256) && HasUpper(hrp)
    requires k <= |hrp| && forall i :: 0 <= i < |hrp| && IsUpper(hrp[i]) ==> k <= i < k + 6
    ensures DecodeSegwit(h, EncodeSegwit(hrp, version, program)) == None
  {
    SegwitReadsAs(h, hrp, version, program);
    if version <= 16 && Printable(hrp) {
      CaseShows(hrp, Written(hrp, version, program), k);
      WrittenChecks(hrp, Payload(version, program), Variant(version));
    }
  }

  /** Changing case changes the upper part of a letter and not the lower. */
  lemma CaseOf(c: char)
    requires 33 as char <= c <= 126 as char
    ensures Lower(c) as nat % 32 == c as nat % 32 && c as nat / 32 < 32 && Lower(c) as nat / 32 < 32
    ensures Lower(c) as nat / 32 == c as nat / 32 <==> !IsUpper(c)
  {
  }

  lemma CaseOfAll(hrp: string)
    requires Printable(hrp)
    ensures Lows(LowerAll(hrp)) == Lows(hrp) && Below(Tops(hrp), 32) && Below(Tops(LowerAll(hrp)), 32)
    ensures forall i :: 0 <= i < |hrp| ==> (Tops(LowerAll(hrp))[i] == Tops(hrp)[i] <==> !IsUpper(hrp[i]))
  {
    forall i | 0 <= i < |hrp|
      ensures Lows(LowerAll(hrp))[i] == Lows(hrp)[i] && Tops(hrp)[i] < 32 && Tops(LowerAll(hrp))[i] < 32
      ensures Tops(LowerAll(hrp))[i] == Tops(hrp)[i] <==> !IsUpper(hrp[i])
    {
      CaseOf(hrp[i]);
    }
  }

  /** Sequences that differ, and only inside six neighbours, have different checksums whatever follows. */
  lemma WindowShows(x: seq<nat>, y: seq<nat>, k: nat, after: seq<nat>)
    requires |x| == |y| && x != y && Below(x, 32) && Below(y, 32) && k <= |x|
    requires forall i :: 0 <= i < |x| && !(k <= i < k + 6) ==> x[i] == y[i]
    ensures Fold(Word(1), x + after) != Fold(Word(1), y + after)
  {
    var m := if k + 6 <= |x| then k + 6 else |x|;
    assert x[..k] == y[..k] && x[m..] == y[m..];
    CutInThree(x, k, m, after);
    CutInThree(y, k, m, after);
    BurstIsCaught(x[..k], x[k..m], y[k..m], x[m..] + after);
  }

  lemma CutInThree(x: seq<nat>, k: nat, m: nat, after: seq<nat>)
    requires k <= m <= |x|
    ensures x + after == x[..k] + x[k..m] + (x[m..] + after) && x == x[..k] + x[k..m] + x[m..]
  {
  }

  lemma CaseShows(hrp: string, all: seq<nat>, k: nat)
    requires HasUpper(hrp) && Printable(hrp) && k <= |hrp|
    requires forall i :: 0 <= i < |hrp| && IsUpper(hrp[i]) ==> k <= i < k + 6
    ensures Fold(Word(1), Expand(LowerAll(hrp)) + all) != Fold(Word(1), Expand(hrp) + all)
  {
    CaseOfAll(hrp);
    var x, y := Tops(LowerAll(hrp)), Tops(hrp);
    var c :| 0 <= c < |hrp| && IsUpper(hrp[c]);
    assert x[c] != y[c];
    var after := [0] + Lows(hrp);
    WindowShows(x, y, k, after + all);
    Assoc(x, after, all);
    Assoc(y, after, all);
  }

  /** A version 0 program of two bytes: written, and read by nobody. */
  lemma TwoBytesAreRefused(h: string)
    ensures EncodeSegwit("bc", 0, [0, 0]) != "" && DecodeSegwit(h, EncodeSegwit("bc", 0, [0, 0])) == None
  {
    SegwitReadsAs(h, "bc", 0, [0, 0]);
  }

  /** Every address that reads is, in lower case, the one address written for what was read. */
  lemma SegwitWritesBack(hrp: string, address: string)
    requires DecodeSegwit(hrp, address).Some?
    ensures
      var a := DecodeSegwit(hrp, address).value;
      Legal(a.version, a.program) && Below(a.program, 256)
          && EncodeSegwit(hrp, a.version, a.program) == LowerAll(address)
  {
    hide Decode, Encode;
    var t := Decode(address).value;
    EncodeOfDecode(address);
    var a := DecodeSegwit(hrp, address).value;
    RegroupingIsExact(t.values[1..], a.program);
    assert t.values == [a.version] + t.values[1..];
  }
}
