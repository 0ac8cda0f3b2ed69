/** Byte strings as numbers, most significant byte first. */
module BigEndian {
  type Byte = n: int | 0 <= n < 256 witness 0

  function Value(bytes: seq<Byte>): nat {
    if bytes == [] then 0 else 256 * Value(bytes[..|bytes| - 1]) + bytes[|bytes| - 1]
  }

  /** The last `len` bytes of n. */
  function ToBytes(n: nat, len: nat): (bytes: seq<Byte>)
    ensures |bytes| == len
  {
    if len == 0 then [] else ToBytes(n / 256, len - 1) + [n % 256]
  }

  /** 256^len */
  function Span(len: nat): nat { if len == 0 then 1 else 256 * Span(len - 1) }

  lemma {:induction false} ValueOfBytes(n: nat, len: nat)
    requires n < Span(len)
    ensures Value(ToBytes(n, len)) == n
  {
    if len == 0 {
    } else {
      ValueOfBytes(n / 256, len - 1);
      var bytes := ToBytes(n, len);
      assert bytes[..|bytes| - 1] == ToBytes(n / 256, len - 1);
    }
  }

  lemma {:induction false} BytesOfValue(bytes: seq<Byte>)
    ensures Value(bytes) < Span(|bytes|) && ToBytes(Value(bytes), |bytes|) == bytes
  {
    if bytes == [] {
    } else {
      var init, last := bytes[..|bytes| - 1], bytes[|bytes| - 1];
      BytesOfValue(init);
      assert Value(bytes) / 256 == Value(init) && Value(bytes) % 256 == last;
      assert bytes == init + [last];
    }
  }
}
