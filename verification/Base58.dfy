/** Base58 as it is computed: digits multiplied and carried in place in a buffer sized by a ratio of logarithms. */
module Base58 {
  import opened Sequences
  import opened Wrappers
  import opened Radix

  /** Bytes and digits are small numbers here; bytes are below 256. */
  type Bytes = seq<nat>

  // ---- the alphabet -----------------------------------------------------------------------------

  /** The position of a character in `pszBase58`, by its runs of consecutive characters: no `0`, `I`, `O` and `l`. */
  function DigitOf(c: char): Option<nat> {
    if '1' <= c <= '9' then Some((c - '1') as nat)
    else if 'A' <= c <= 'H' then Some((c - 'A') as nat + 9)
    else if 'J' <= c <= 'N' then Some((c - 'J') as nat + 17)
    else if 'P' <= c <= 'Z' then Some((c - 'P') as nat + 22)
    else if 'a' <= c <= 'k' then Some((c - 'a') as nat + 33)
    else if 'm' <= c <= 'z' then Some((c - 'm') as nat + 44)
    else None
  }

  /** The character at a position. */
  function CharOf(d: nat): char
    requires d < 58
  {
    if d < 9 then '1' + d as char
    else if d < 17 then 'A' + (d - 9) as char
    else if d < 22 then 'J' + (d - 17) as char
    else if d < 33 then 'P' + (d - 22) as char
    else if d < 44 then 'a' + (d - 33) as char
    else 'm' + (d - 44) as char
  }

  lemma CharsAreDigits(d: nat)
    requires d < 58
    ensures DigitOf(CharOf(d)) == Some(d)
  {
  }

  lemma DigitsAreChars(c: char)
    requires DigitOf(c).Some?
    ensures DigitOf(c).value < 58 && CharOf(DigitOf(c).value) == c
  {
  }

  // ---- text --------------------------------------------------------------------------------------

  function Text(ds: Digits): string
    requires Below(ds, 58)
  {
    if ds == [] then "" else [CharOf(ds[0])] + Text(ds[1..])
  }

  function Untext(s: string): Option<Digits> {
    if s == "" then Some([])
    else
      match DigitOf(s[0])
      case None => None
      case Some(d) =>
        match Untext(s[1..])
        case None => None
        case Some(ds) => Some([d] + ds)
  }

  lemma {:induction false} UntextOfText(ds: Digits)
    requires Below(ds, 58)
    ensures Untext(Text(ds)) == Some(ds)
  {
    if ds != [] {
      CharsAreDigits(ds[0]);
      UntextOfText(ds[1..]);
      assert Text(ds)[1..] == Text(ds[1..]);
      assert ds == [ds[0]] + ds[1..];
    }
  }

  lemma {:induction false} TextOfUntext(s: string)
    requires Untext(s).Some?
    ensures Below(Untext(s).value, 58) && Text(Untext(s).value) == s && |Untext(s).value| == |s|
  {
    if s != "" {
      DigitsAreChars(s[0]);
      TextOfUntext(s[1..]);
      var ds := Untext(s).value;
      assert ds[1..] == Untext(s[1..]).value;
      assert s == [s[0]] + s[1..];
    }
  }

  // ---- what is encoded and decoded --------------------------------------------------------------------

  function Leading<T(==)>(s: seq<T>, x: T): (n: nat)
    ensures n <= |s| && (forall k :: 0 <= k < n ==> s[k] == x) && (n < |s| ==> s[n] != x)
  {
    if s == [] || s[0] != x then 0 else 1 + Leading(s[1..], x)
  }

  function Copies<T>(x: T, n: nat): (s: seq<T>)
    ensures |s| == n && forall k :: 0 <= k < n ==> s[k] == x
  {
    if n == 0 then [] else [x] + Copies(x, n - 1)
  }

  /** A one for each zero byte in front, then the number in base 58. */
  function Encode(bytes: Bytes): string {
    var z := Leading(bytes, 0);
    ValueOfDigits(Value(bytes[z..], 256), 58);
    Copies('1', z) + Text(DigitsOf(Value(bytes[z..], 256), 58))
  }

  function DecodeWord(s: string): Option<Bytes> {
    var z := Leading(s, '1');
    match Untext(s[z..])
    case None => None
    case Some(ds) => Some(Copies(0, z) + DigitsOf(Value(ds, 58), 256))
  }

  /** `isspace`. */
  predicate IsSpace(c: char) { c == ' ' || 9 as char <= c <= 13 as char }

  function SkipSpaces(s: string): string { if s != "" && IsSpace(s[0]) then SkipSpaces(s[1..]) else s }

  function WordLength(s: string): (n: nat)
    ensures n <= |s| && forall k :: 0 <= k < n ==> !IsSpace(s[k])
  {
    if s == "" || IsSpace(s[0]) then 0 else 1 + WordLength(s[1..])
  }

  /** One word, with spaces before and behind. */
  function Decode(s: string): Option<Bytes> {
    var t := SkipSpaces(s);
    var n := WordLength(t);
    if SkipSpaces(t[n..]) != "" then None else DecodeWord(t[..n])
  }

  lemma {:induction false} LeadingOf<T>(s: seq<T>, x: T, n: nat)
    requires n <= |s| && (forall k :: 0 <= k < n ==> s[k] == x) && (n < |s| ==> s[n] != x)
    ensures Leading(s, x) == n
  {
    if n > 0 {
      LeadingOf(s[1..], x, n - 1);
    }
  }

  lemma CopiesOf<T>(s: seq<T>, x: T)
    requires forall k :: 0 <= k < |s| ==> s[k] == x
    ensures s == Copies(x, |s|)
  {
  }

  lemma {:induction false} NoSpacesOneWord(s: string)
    requires forall k :: 0 <= k < |s| ==> !IsSpace(s[k])
    ensures SkipSpaces(s) == s && WordLength(s) == |s|
  {
    if s != "" {
      NoSpacesOneWord(s[1..]);
    }
  }

  lemma WholeWord(s: string)
    requires forall k :: 0 <= k < |s| ==> !IsSpace(s[k])
    ensures Decode(s) == DecodeWord(s)
  {
    NoSpacesOneWord(s);
    assert s[..|s|] == s && s[|s|..] == "";
  }

  lemma {:induction false} TextHasNoSpaces(ds: Digits)
    requires Below(ds, 58)
    ensures |Text(ds)| == |ds| && (forall k :: 0 <= k < |ds| ==> !IsSpace(Text(ds)[k]))
    ensures ds != [] ==> Text(ds)[0] == CharOf(ds[0])
  {
    if ds != [] {
      TextHasNoSpaces(ds[1..]);
      assert forall k :: 0 < k < |ds| ==> Text(ds)[k] == Text(ds[1..])[k - 1];
    }
  }

  /** Zeros in front and a number without, taken apart again. */
  lemma TakenApart<T>(x: T, n: nat, rest: seq<T>)
    requires rest == [] || rest[0] != x
    ensures Leading(Copies(x, n) + rest, x) == n && (Copies(x, n) + rest)[n..] == rest
  {
    LeadingOf(Copies(x, n) + rest, x, n);
  }

  lemma WordOf(z: nat, ds: Digits)
    requires Below(ds, 58) && NoLeadingZero(ds)
    ensures DecodeWord(Copies('1', z) + Text(ds)) == Some(Copies(0, z) + DigitsOf(Value(ds, 58), 256))
    ensures |Text(ds)| == |ds| && forall k :: 0 <= k < z + |ds| ==> !IsSpace((Copies('1', z) + Text(ds))[k])
  {
    TextHasNoSpaces(ds);
    if ds != [] {
      CharsAreDigits(ds[0]);
    }
    TakenApart('1', z, Text(ds));
    UntextOfText(ds);
  }

  /** The text of a number with zeros in front of it. */
  lemma EncodeOf(z: nat, v: nat)
    ensures Below(DigitsOf(v, 58), 58)
        && Encode(Copies(0, z) + DigitsOf(v, 256)) == Copies('1', z) + Text(DigitsOf(v, 58))
  {
    ValueOfDigits(v, 58);
    ValueOfDigits(v, 256);
    TakenApart(0, z, DigitsOf(v, 256));
  }

  /** Any bytes are zeros in front of a number's. */
  lemma BytesAre(bytes: Bytes) returns (z: nat, v: nat)
    requires Below(bytes, 256)
    ensures bytes == Copies(0, z) + DigitsOf(v, 256)
  {
    z := Leading(bytes, 0);
    v := Value(bytes[z..], 256);
    DigitsOfValue(bytes[z..], 256);
    CopiesOf(bytes[..z], 0);
    assert bytes == bytes[..z] + bytes[z..];
  }

  /** What is encoded decodes to itself. */
  lemma DecodeOfEncode(bytes: Bytes)
    requires Below(bytes, 256)
    ensures Decode(Encode(bytes)) == Some(bytes)
  {
    var z, v := BytesAre(bytes);
    EncodeOf(z, v);
    ValueOfDigits(v, 58);
    WordOf(z, DigitsOf(v, 58));
    WholeWord(Encode(bytes));
  }

  /** Any word of the alphabet is ones in front of a number's text. */
  lemma WordIs(s: string) returns (z: nat, ds: Digits)
    requires DecodeWord(s).Some?
    ensures Below(ds, 58) && NoLeadingZero(ds) && s == Copies('1', z) + Text(ds)
        && DecodeWord(s).value == Copies(0, z) + DigitsOf(Value(ds, 58), 256)
  {
    z := Leading(s, '1');
    TextOfUntext(s[z..]);
    ds := Untext(s[z..]).value;
    if ds != [] {
      DigitsAreChars(s[z]);
      assert s[z..][0] == s[z];
    }
    CopiesOf(s[..z], '1');
    assert s == s[..z] + s[z..];
  }

  /** A word that decodes is the encoding of what it decodes to. */
  lemma EncodeOfDecode(s: string)
    requires (forall k :: 0 <= k < |s| ==> !IsSpace(s[k])) && Decode(s).Some?
    ensures Below(Decode(s).value, 256) && Encode(Decode(s).value) == s
  {
    WholeWord(s);
    var z, ds := WordIs(s);
    ValueOfDigits(Value(ds, 58), 256);
    EncodeOf(z, Value(ds, 58));
    DigitsOfValue(ds, 58);
  }

  // ---- the buffers are big enough -------------------------------------------------------------------------

  lemma EightBytesInEleven()
    ensures Pow(256, 8) <= Pow(58, 11)
  {
    assert Pow(58, 1) == 58 && Pow(256, 1) == 256;
    PowAdd(58, 1, 1);
    assert Pow(58, 2) == 3364;
    PowAdd(58, 2, 2);
    assert Pow(58, 4) == 11316496;
    PowAdd(58, 4, 4);
    assert Pow(58, 8) == 128063081718016;
    PowAdd(58, 8, 2);
    PowAdd(58, 10, 1);
    assert Pow(58, 10) == 430804206899405824 && Pow(58, 11) == 24986644000165537792;
    PowAdd(256, 1, 1);
    assert Pow(256, 2) == 65536;
    PowAdd(256, 2, 2);
    assert Pow(256, 4) == 4294967296;
    PowAdd(256, 4, 4);
    assert Pow(256, 8) == 18446744073709551616;
  }

  lemma SeventyOneInFiftyTwo()
    ensures Pow(58, 71) <= Pow(256, 52)
  {
    assert Pow(58, 1) == 58 && Pow(256, 1) == 256;
    PowAdd(58, 1, 1);
    assert Pow(58, 2) == 3364;
    PowAdd(58, 2, 2);
    assert Pow(58, 4) == 11316496;
    PowAdd(58, 4, 4);
    assert Pow(58, 8) == 128063081718016;
    PowAdd(58, 8, 8);
    assert Pow(58, 16) == 16400152899115243850138976256;
    PowAdd(58, 16, 16);
    assert Pow(58, 32) == 268965015114358137726910587140455987105619365599731777536;
    PowAdd(58, 32, 32);
    assert Pow(58, 64)
        == 72342179355466901471258927612150153907721848234316445933056526044582001260898145151856420451025374266490194231296;
    PowAdd(58, 64, 4);
    PowAdd(58, 68, 2);
    PowAdd(58, 70, 1);
    assert Pow(58, 71)
        == 159730386663078066345306447337161584696769904898410078913243029577507397293846405390982563136983769384625594118558891106107392;
    PowAdd(256, 1, 1);
    assert Pow(256, 2) == 65536;
    PowAdd(256, 2, 2);
    assert Pow(256, 4) == 4294967296;
    PowAdd(256, 4, 4);
    assert Pow(256, 8) == 18446744073709551616;
    PowAdd(256, 8, 8);
    assert Pow(256, 16) == 340282366920938463463374607431768211456;
    PowAdd(256, 16, 16);
    assert Pow(256, 32) == 115792089237316195423570985008687907853269984665640564039457584007913129639936;
    PowAdd(256, 32, 16);
    PowAdd(256, 48, 4);
    assert Pow(256, 52)
        == 169230328010303641331690318856389386196071598838855992136870091590247882556495704531248437872567112920983350278405979725889536;
  }

  /** Up to `n` bytes fit in a buffer of `n * 138 / 100 + 1` base 58 digits. */
  lemma EncodeBufferFits(bytes: Bytes, n: nat)
    requires Below(bytes, 256) && |bytes| <= n
    ensures Value(bytes, 256) < Pow(58, n * 138 / 100 + 1)
  {
    EightBytesInEleven();
    ValueBound(bytes, 256);
    DigitsFit(256, 58, 8, 11, |bytes|, n * 138 / 100 + 1);
  }

  /** Up to `n` base 58 digits fit in a buffer of `n * 733 / 1000 + 1` bytes. */
  lemma DecodeBufferFits(ds: Digits, n: nat)
    requires Below(ds, 58) && |ds| <= n
    ensures Value(ds, 58) < Pow(256, n * 733 / 1000 + 1)
  {
    SeventyOneInFiftyTwo();
    ValueBound(ds, 58);
    DigitsFit(58, 256, 71, 52, |ds|, n * 733 / 1000 + 1);
  }

  // ---- the two conversions --------------------------------------------------------------------------------

  /** The digits behind the zeros in front of the buffer. */
  method Trimmed(buf: array<nat>, length: nat, b: nat) returns (ds: Digits)
    requires b >= 2 && Below(buf[..], b) && Padded(buf[..], length)
    ensures ds == DigitsOf(Value(buf[..], b), b)
  {
    var it := buf.Length - length;
    assert forall k :: 0 <= k < it ==> buf[k] == 0;
    while it < buf.Length && buf[it] == 0
      invariant it <= buf.Length && forall k :: 0 <= k < it ==> buf[k] == 0
    {
      it := it + 1;
    }
    ds := buf[it..];
    ValueOfZeros(buf[..it], b);
    ValueSplit(buf[..it], buf[it..], b);
    assert buf[..] == buf[..it] + buf[it..];
    DigitsOfValue(ds, b);
  }

  /** Digits of one base, read in turn into a buffer of another that is long enough. */
  method Convert(ds: Digits, from: nat, to: nat, size: nat) returns (result: Digits)
    requires to >= 2 && Below(ds, from) && forall k :: 0 <= k <= |ds| ==> Value(ds[..k], from) < Pow(to, size)
    ensures result == DigitsOf(Value(ds, from), to)
  {
    var buf := new nat[size](_ => 0);
    var length := 0;
    ValueOfZeros(buf[..], to);
    for k := 0 to |ds|
      invariant Below(buf[..], to) && Padded(buf[..], length) && Value(buf[..], to) == Value(ds[..k], from)
    {
      assert ds[..k + 1][..k] == ds[..k];
      length := MultiplyAdd(buf, to, from, ds[k], length);
    }
    assert ds[..|ds|] == ds;
    result := Trimmed(buf, length, to);
  }

  method ToText(ds: Digits) returns (s: string)
    requires Below(ds, 58)
    ensures s == Text(ds)
  {
    s := "";
    var k := |ds|;
    while k > 0
      invariant 0 <= k <= |ds| && s == Text(ds[k..])
    {
      k := k - 1;
      assert ds[k..][1..] == ds[k + 1..];
      s := [CharOf(ds[k])] + s;
    }
    assert ds[0..] == ds;
  }

  /** `EncodeBase58`. */
  method EncodeBase58(bytes: Bytes) returns (s: string)
    requires Below(bytes, 256)
    ensures s == Encode(bytes)
  {
    var z := Leading(bytes, 0);
    var rest := bytes[z..];
    var size := |rest| * 138 / 100 + 1;
    forall k | 0 <= k <= |rest| ensures Value(rest[..k], 256) < Pow(58, size) {
      EncodeBufferFits(rest[..k], |rest|);
    }
    var ds := Convert(rest, 256, 58, size);
    ValueOfDigits(Value(rest, 256), 58);
    s := ToText(ds);
    s := Copies('1', z) + s;
  }

  // ---- a text read character by character ---------------------------------------------------------------

  method Skip(s: string, start: nat) returns (p: nat)
    requires start <= |s|
    ensures start <= p <= |s| && s[p..] == SkipSpaces(s[start..])
  {
    p := start;
    while p < |s| && IsSpace(s[p])
      invariant start <= p <= |s| && SkipSpaces(s[p..]) == SkipSpaces(s[start..])
    {
      assert s[p..][1..] == s[p + 1..];
      p := p + 1;
    }
  }

  method SkipOnes(s: string, start: nat) returns (zeroes: nat)
    requires start <= |s|
    ensures zeroes == Leading(s[start..], '1')
  {
    var p := start;
    while p < |s| && s[p] == '1'
      invariant start <= p <= |s| && forall k :: start <= k < p ==> s[k] == '1'
    {
      p := p + 1;
    }
    zeroes := p - start;
    LeadingOf(s[start..], '1', zeroes);
  }

  lemma {:induction false} UntextMore(s: string, c: char)
    ensures Untext(s + [c]) == if Untext(s).Some? && DigitOf(c).Some? then Some(Untext(s).value + [DigitOf(c).value])
        else None
  {
    if s == "" {
      assert s + [c] == [c] && [c][1..] == "";
      var none: Digits := [];
      assert DigitOf(c).Some? ==> [DigitOf(c).value] + none == none + [DigitOf(c).value];
    } else {
      UntextMore(s[1..], c);
      assert (s + [c])[1..] == s[1..] + [c];
      if Untext(s + [c]).Some? {
        Assoc([DigitOf(s[0]).value], Untext(s[1..]).value, [DigitOf(c).value]);
      }
    }
  }

  lemma {:induction false} UntextStops(s: string, n: nat)
    requires n <= |s| && Untext(s[..n]) == None
    ensures Untext(s) == None
    decreases |s| - n
  {
    if n == |s| {
      assert s[..n] == s;
    } else {
      assert s[..n + 1] == s[..n] + [s[n]];
      UntextMore(s[..n], s[n]);
      UntextStops(s, n + 1);
    }
  }

  /** A word reaches as far as its characters are no spaces. */
  lemma {:induction false} WordReaches(s: string, n: nat)
    requires n <= |s| && forall k :: 0 <= k < n ==> !IsSpace(s[k])
    ensures WordLength(s) == n + WordLength(s[n..])
  {
    if n == 0 {
      assert s[0..] == s;
    } else {
      WordReaches(s[1..], n - 1);
      assert s[1..][n - 1..] == s[n..];
    }
  }

  /** A character outside the alphabet spoils the word it is in. */
  lemma BadCharacter(t: string, n: nat)
    requires n < |t| && (forall k :: 0 <= k <= n ==> !IsSpace(t[k])) && Untext(t[..n]).Some? && DigitOf(t[n]) == None
    ensures Untext(t[..WordLength(t)]) == None
  {
    WordReaches(t, n + 1);
    UntextMore(t[..n], t[n]);
    assert t[..n + 1] == t[..n] + [t[n]];
    SpoiledFront(t, n + 1, WordLength(t));
  }

  lemma SpoiledFront(t: string, m: nat, n: nat)
    requires m <= n <= |t| && Untext(t[..m]) == None
    ensures Untext(t[..n]) == None
  {
    assert t[..n][..m] == t[..m];
    UntextStops(t[..n], m);
  }

  /** One character more: the digits read so far, and that their number still fits the buffer. */
  lemma NextCharacter(t: string, n: nat, size: nat)
    requires n < |t| && Untext(t[..n]).Some? && DigitOf(t[n]).Some? && size == |t| * 733 / 1000 + 1
    ensures Untext(t[..n + 1]).Some?
    ensures
      var ds, more, d := Untext(t[..n]).value, Untext(t[..n + 1]).value, DigitOf(t[n]).value;
      d < 58 && Value(more, 58) == Value(ds, 58) * 58 + d && Value(more, 58) < Pow(256, size)
  {
    UntextMore(t[..n], t[n]);
    assert t[..n + 1] == t[..n] + [t[n]];
    DigitsAreChars(t[n]);
    var ds, more := Untext(t[..n]).value, Untext(t[..n + 1]).value;
    assert more[..|more| - 1] == ds;
    TextOfUntext(t[..n + 1]);
    DecodeBufferFits(more, |t|);
  }

  /**
  The characters up to a space or the end, each multiplied in before the next is looked at: no carry is
  left behind any of them, a bad character later on or not.
   */
  method TakeWord(t: string, buf: array<nat>) returns (ok: bool, n: nat, length: nat)
    requires buf.Length == |t| * 733 / 1000 + 1 && forall k :: 0 <= k < buf.Length ==> buf[k] == 0
    modifies buf
    ensures ok <==> Untext(t[..WordLength(t)]).Some?
    ensures ok ==> n == WordLength(t) && Below(buf[..], 256) && Padded(buf[..], length)
    ensures ok ==> Value(buf[..], 256) == Value(Untext(t[..n]).value, 58)
  {
    n, length := 0, 0;
    ValueOfZeros(buf[..], 256);
    assert t[..0] == "";
    while n < |t| && !IsSpace(t[n])
      invariant n <= |t| && (forall k :: 0 <= k < n ==> !IsSpace(t[k])) && Untext(t[..n]).Some?
      invariant Below(buf[..], 256) && Padded(buf[..], length) && Value(buf[..], 256) == Value(Untext(t[..n]).value, 58)
    {
      var d := DigitOf(t[n]);
      if d == None {
        BadCharacter(t, n);
        return false, n, length;
      }
      NextCharacter(t, n, buf.Length);
      length := MultiplyAdd(buf, 256, 58, d.value, length);
      n := n + 1;
    }
    WordReaches(t, n);
    ok := true;
  }

  /** The ones in front belong to the word, and nothing else does before them. */
  lemma OnesAndWord(t: string, z: nat)
    requires z == Leading(t, '1')
    ensures
      var n := WordLength(t[z..]);
      WordLength(t) == z + n && Leading(t[..z + n], '1') == z && t[..z + n][z..] == t[z..][..n]
          && t[z + n..] == t[z..][n..]
  {
    WordReaches(t, z);
    LeadingOf(t[..z + WordLength(t[z..])], '1', z);
  }

  /** A text behind its spaces, by the ones in front, the characters after them and what follows. */
  lemma DecodeParts(s: string, z: nat, d: string, n: nat)
    requires z == Leading(SkipSpaces(s), '1') && d == SkipSpaces(s)[z..] && n == WordLength(d)
    ensures Decode(s) ==
            if SkipSpaces(d[n..]) != "" || Untext(d[..n]) == None then None
            else Some(Copies(0, z) + DigitsOf(Value(Untext(d[..n]).value, 58), 256))
  {
    OnesAndWord(SkipSpaces(s), z);
  }

  /** `DecodeBase58`: the buffer is sized by all that is left of the text. */
  method DecodeBase58(s: string) returns (result: Option<Bytes>)
    ensures result == Decode(s)
  {
    var start := Skip(s, 0);
    assert s[0..] == s;
    var zeroes := SkipOnes(s, start);
    var digits := s[start + zeroes..];
    assert digits == s[start..][zeroes..];
    DecodeParts(s, zeroes, digits, WordLength(digits));
    var buf := new nat[|digits| * 733 / 1000 + 1](_ => 0);
    var ok, n, length := TakeWord(digits, buf);
    if !ok {
      return None;
    }
    var end := Skip(digits, n);
    if end < |digits| {
      return None;
    }
    var bytes := Trimmed(buf, length, 256);
    result := Some(Copies(0, zeroes) + bytes);
  }
}
