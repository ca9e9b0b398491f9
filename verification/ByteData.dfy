/** Bytes, and the numbers they stand for. */
module ByteData {

  newtype Byte = x: int | 0 <= x < 256

  type Data = seq<Byte>

  /** One more than the largest 64-bit number. */
  const WORD_64: nat := 0x1_0000_0000_0000_0000

  function Power(n: nat): nat { if n == 0 then 1 else 256 * Power(n - 1) }

  lemma Powers()
    ensures Power(2) == 0x1_0000 && Power(4) == 0x1_0000_0000
  {
    assert Power(1) == 256 && Power(2) == 256 * Power(1) && Power(3) == 256 * Power(2) && Power(4) == 256 * Power(3);
  }

  lemma EightBytes()
    ensures Power(8) == WORD_64
  {
    Powers();
    assert Power(5) == 256 * Power(4) && Power(6) == 256 * Power(5);
    assert Power(7) == 256 * Power(6) && Power(8) == 256 * Power(7);
  }

  lemma Digit(low: nat, more: nat)
    requires low < 256
    ensures (low + 256 * more) % 256 == low && (low + 256 * more) / 256 == more
  {
  }

  /** Little endian. */
  function Little(bytes: Data): nat { if bytes == [] then 0 else bytes[0] as nat + 256 * Little(bytes[1..]) }
}
