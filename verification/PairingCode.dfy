/**
 Pairing and sign-in codes (core/pairing.js, core/remote.js): the top 60 bits of a digest as twelve Crockford
 characters, shown in groups of four, and read back through whatever a viewer types.

 The slicing loop keeps its accumulator in a 32-bit word that overflows; it is modelled modulo 2^32.
 */
module PairingCode {
  import opened BigEndian
  import opened JsText
  import opened Wrappers

  const PAIRING_CODE_LENGTH := 12
  const CROCKFORD_ALPHABET := "0123456789ABCDEFGHJKMNPQRSTVWXYZ"
  const WORD := 0x1_0000_0000

  type Digit = n: int | 0 <= n < 32 witness 0

  // ---- numbers and digits ----------------------------------------------------------------------

  /** The bits above position `bits`: an unsigned shift to the right. */
  function Above(value: nat, bits: nat): nat { if bits == 0 then value else Above(value, bits - 1) / 2 }

  /** The last `len` base-32 digits of n, most significant first. */
  function Digits(n: nat, len: nat): (ds: seq<Digit>)
    ensures |ds| == len
  {
    if len == 0 then [] else Digits(n / 32, len - 1) + [n % 32]
  }

  function Number(ds: seq<Digit>): nat {
    if ds == [] then 0 else 32 * Number(ds[..|ds| - 1]) + ds[|ds| - 1]
  }

  /** 32^len */
  function Limit(len: nat): nat { if len == 0 then 1 else 32 * Limit(len - 1) }

  lemma {:induction false} NumberOfDigits(n: nat, len: nat)
    requires n < Limit(len)
    ensures Number(Digits(n, len)) == n
  {
    if len == 0 {
    } else {
      NumberOfDigits(n / 32, len - 1);
      var ds := Digits(n, len);
      assert ds[..|ds| - 1] == Digits(n / 32, len - 1);
    }
  }

  lemma {:induction false} DigitsOfNumber(ds: seq<Digit>)
    ensures Number(ds) < Limit(|ds|) && Digits(Number(ds), |ds|) == ds
  {
    if ds == [] {
    } else {
      var init, last := ds[..|ds| - 1], ds[|ds| - 1];
      DigitsOfNumber(init);
      assert Number(ds) / 32 == Number(init) && Number(ds) % 32 == last;
      assert ds == init + [last];
    }
  }

  // ---- the slicing loop ------------------------------------------------------------------------

  lemma {:induction false} AboveAbove(value: nat, low: nat, high: nat)
    ensures Above(Above(value, low), high) == Above(value, low + high)
  {
    if high > 0 { AboveAbove(value, low, high - 1); }
  }

  lemma Halves(value: nat)
    ensures Above(value, 4) == value / 16 && Above(value, 5) == value / 32 && Above(value, 8) == value / 256
  {
    assert Above(value, 1) == value / 2 && Above(value, 2) == Above(value, 1) / 2
           && Above(value, 3) == Above(value, 2) / 2;
    assert Above(value, 4) == Above(value, 3) / 2 && Above(value, 5) == Above(value, 4) / 2
           && Above(value, 6) == Above(value, 5) / 2;
    assert Above(value, 7) == Above(value, 6) / 2 && Above(value, 8) == Above(value, 7) / 2;
  }

  /** Shifting in a byte leaves the bits above it where they were. */
  lemma ShiftIn(value: nat, byte: Byte, bits: nat)
    ensures Above(256 * value + byte, bits + 8) == Above(value, bits)
  {
    AboveAbove(256 * value + byte, 8, bits);
    Halves(256 * value + byte);
  }

  lemma Halved(a: nat, b: nat, m: nat)
    requires a == b + 2 * m
    ensures a / 2 == b / 2 + m
  {}

  /** The word's overflow, shifted along: always a multiple of 2^(32 - bits). */
  lemma OverflowShifts(value: nat)
    ensures
      var h, low := value / WORD, value % WORD;
      && Above(value, 0) == Above(low, 0) + 0x1_0000_0000 * h
      && Above(value, 1) == Above(low, 1) + 0x8000_0000 * h
      && Above(value, 2) == Above(low, 2) + 0x4000_0000 * h
      && Above(value, 3) == Above(low, 3) + 0x2000_0000 * h
      && Above(value, 4) == Above(low, 4) + 0x1000_0000 * h
      && Above(value, 5) == Above(low, 5) + 0x800_0000 * h
      && Above(value, 6) == Above(low, 6) + 0x400_0000 * h
      && Above(value, 7) == Above(low, 7) + 0x200_0000 * h
  {
    var h, low := value / WORD, value % WORD;
    assert Above(value, 0) == value && Above(low, 0) == low;
    Halved(Above(value, 0), Above(low, 0), 0x8000_0000 * h);
    Halved(Above(value, 1), Above(low, 1), 0x4000_0000 * h);
    Halved(Above(value, 2), Above(low, 2), 0x2000_0000 * h);
    Halved(Above(value, 3), Above(low, 3), 0x1000_0000 * h);
    Halved(Above(value, 4), Above(low, 4), 0x800_0000 * h);
    Halved(Above(value, 5), Above(low, 5), 0x400_0000 * h);
    Halved(Above(value, 6), Above(low, 6), 0x200_0000 * h);
  }

  lemma SameLastDigit(a: nat, b: nat, m: nat)
    requires a == b + 32 * m
    ensures a % 32 == b % 32
  {}

  /** What overflowed out of the word is not read: the low bits below position 12 are all there. */
  lemma OverflowIsAbove(value: nat, bits: nat)
    requires bits <= 7
    ensures Above(value % WORD, bits) % 32 == Above(value, bits) % 32
  {
    var h, low := value / WORD, value % WORD;
    OverflowShifts(value);
    var share :=
      match bits
      case 0 => 0x800_0000 * h case 1 => 0x400_0000 * h case 2 => 0x200_0000 * h case 3 => 0x100_0000 * h
      case 4 => 0x80_0000 * h case 5 => 0x40_0000 * h case 6 => 0x20_0000 * h case _ => 0x10_0000 * h;
    SameLastDigit(Above(value, bits), Above(low, bits), share);
  }

  lemma WordShift(value: nat, byte: Byte)
    ensures (value % WORD * 256 + byte) % WORD == (256 * value + byte) % WORD
  {
    var high, low := value / WORD, value % WORD;
    assert 256 * value + byte == WORD * (256 * high) + (low * 256 + byte);
    AddMultiple(low * 256 + byte, 256 * high);
  }

  lemma {:induction false} AddMultiple(n: nat, k: nat)
    ensures (WORD * k + n) % WORD == n % WORD
  {
    if k > 0 {
      AddMultiple(n, k - 1);
      assert WORD * k + n == (WORD * (k - 1) + n) + WORD;
    }
  }

  function DigitAt(acc: nat, bits: nat): Digit { Above(acc, bits) % 32 }

  /** A byte shifted into the 32-bit word. */
  function Push(acc: nat, byte: Byte): nat { (acc * 256 + byte) % WORD }

  lemma NextByte(digest: seq<Byte>, i: nat, bits: nat)
    requires i < |digest| && bits < 5
    ensures Value(digest[..i + 1]) % WORD == Push(Value(digest[..i]) % WORD, digest[i])
    ensures Above(Value(digest[..i + 1]), bits + 8) == Above(Value(digest[..i]), bits)
  {
    assert digest[..i + 1][..i] == digest[..i];
    WordShift(Value(digest[..i]), digest[i]);
    ShiftIn(Value(digest[..i]), digest[i], bits);
  }

  lemma NextDigit(value: nat, acc: nat, bits: nat, out: seq<Digit>)
    requires bits <= 7 && acc == value % WORD && out == Digits(Above(value, bits + 5), |out|)
    ensures out + [DigitAt(acc, bits)] == Digits(Above(value, bits), |out| + 1)
  {
    AboveAbove(value, bits, 5);
    Halves(Above(value, bits));
    OverflowIsAbove(value, bits);
  }

  /** The inner loop: every whole digit the accumulator holds, unless the code is complete. */
  method TakeDigits(acc: nat, bits0: nat, out0: seq<Digit>, ghost value: nat) returns (bits: nat, out: seq<Digit>)
    requires acc == value % WORD && bits0 <= 12 && |out0| < PAIRING_CODE_LENGTH
             && out0 == Digits(Above(value, bits0), |out0|)
    ensures |out| <= PAIRING_CODE_LENGTH && bits + 5 * |out| == bits0 + 5 * |out0|
    ensures bits < 5 || |out| == PAIRING_CODE_LENGTH
    ensures out == Digits(Above(value, bits), |out|)
  {
    bits, out := bits0, out0;
    while bits >= 5 && |out| < PAIRING_CODE_LENGTH
      invariant |out| <= PAIRING_CODE_LENGTH && bits + 5 * |out| == bits0 + 5 * |out0| && bits <= 12
      invariant out == Digits(Above(value, bits), |out|)
      decreases bits
    {
      bits := bits - 5;
      NextDigit(value, acc, bits, out);
      out := out + [DigitAt(acc, bits)];
    }
  }

  /** The code is the twelve base-32 digits of the digest's top 60 bits; only the first eight bytes are read. */
  method SliceDigest(digest: seq<Byte>) returns (out: seq<Digit>)
    requires |digest| >= 8
    ensures out == Digits(Value(digest[..8]) / 16, PAIRING_CODE_LENGTH)
  {
    var acc: nat, bits: nat, i: nat := 0, 0, 0;
    out := [];
    while |out| < PAIRING_CODE_LENGTH
      invariant i <= 8 && |out| <= PAIRING_CODE_LENGTH && bits + 5 * |out| == 8 * i && bits < 5
      invariant acc == Value(digest[..i]) % WORD
      invariant out == Digits(Above(Value(digest[..i]), bits), |out|)
      decreases 8 - i
    {
      NextByte(digest, i, bits);
      acc := Push(acc, digest[i]);
      i := i + 1;
      bits, out := TakeDigits(acc, bits + 8, out, Value(digest[..i]));
    }
    Halves(Value(digest[..8]));
  }

  // ---- codes as text ---------------------------------------------------------------------------

  /** Digits and capitals without I, L, O and U. */
  predicate IsCrockford(c: char) {
    '0' <= c <= '9' || ('A' <= c <= 'Z' && c != 'I' && c != 'L' && c != 'O' && c != 'U')
  }

  predicate Canonical(s: string) {
    |s| == PAIRING_CODE_LENGTH && forall k :: 0 <= k < |s| ==> IsCrockford(s[k])
  }

  function CharOf(d: Digit): (c: char)
    ensures IsCrockford(c)
  {
    if d < 10 then ('0' as int + d) as char
    else if d < 18 then ('A' as int + d - 10) as char
    else if d < 20 then ('J' as int + d - 18) as char
    else if d < 22 then ('M' as int + d - 20) as char
    else if d < 27 then ('P' as int + d - 22) as char
    else ('V' as int + d - 27) as char
  }

  lemma CharIsInAlphabet(d: Digit)
    ensures CROCKFORD_ALPHABET[d] == CharOf(d)
  {}

  function CodeOf(n: nat): (s: string)
    ensures Canonical(s)
  {
    var ds := Digits(n, PAIRING_CODE_LENGTH);
    seq(PAIRING_CODE_LENGTH, k requires 0 <= k < PAIRING_CODE_LENGTH => CharOf(ds[k]))
  }

  /** Where a character stands in the alphabet. */
  function DigitOf(c: char): Digit
    requires IsCrockford(c)
  {
    if '0' <= c <= '9' then c as int - '0' as int
    else if c <= 'H' then c as int - 'A' as int + 10
    else if c <= 'K' then c as int - 'J' as int + 18
    else if c <= 'N' then c as int - 'M' as int + 20
    else if c <= 'T' then c as int - 'P' as int + 22
    else c as int - 'V' as int + 27
  }

  lemma AlphabetIsIndexed(d: Digit)
    ensures DigitOf(CharOf(d)) == d
  {}

  lemma IndexIsAlphabet(c: char)
    requires IsCrockford(c)
    ensures CharOf(DigitOf(c)) == c
  {}

  function NumberOf(code: string): nat
    requires Canonical(code)
  {
    Number(seq(|code|, k requires 0 <= k < |code| => DigitOf(code[k])))
  }

  lemma SixtyBits()
    ensures Limit(PAIRING_CODE_LENGTH) == 0x1000_0000_0000_0000
  {
    assert Limit(1) == 32 && Limit(2) == 32 * Limit(1) && Limit(3) == 32 * Limit(2) && Limit(4) == 32 * Limit(3);
    assert Limit(5) == 32 * Limit(4) && Limit(6) == 32 * Limit(5) && Limit(7) == 32 * Limit(6)
           && Limit(8) == 32 * Limit(7);
    assert Limit(9) == 32 * Limit(8) && Limit(10) == 32 * Limit(9) && Limit(11) == 32 * Limit(10)
           && Limit(12) == 32 * Limit(11);
  }

  /** Codes and the 60-bit numbers are the same thing: each number has one code and each code one number. */
  lemma CodesAreNumbers(n: nat, code: string)
    ensures n < 0x1000_0000_0000_0000 ==> NumberOf(CodeOf(n)) == n
    ensures Canonical(code) ==> NumberOf(code) < 0x1000_0000_0000_0000 && CodeOf(NumberOf(code)) == code
  {
    SixtyBits();
    if n < Limit(PAIRING_CODE_LENGTH) {
      var ds, s := Digits(n, PAIRING_CODE_LENGTH), CodeOf(n);
      forall k | 0 <= k < |s| ensures DigitOf(s[k]) == ds[k] { AlphabetIsIndexed(ds[k]); }
      assert seq(|s|, k requires 0 <= k < |s| => DigitOf(s[k])) == ds;
      NumberOfDigits(n, PAIRING_CODE_LENGTH);
    }
    if Canonical(code) {
      var ds: seq<Digit> := seq(|code|, k requires 0 <= k < |code| => DigitOf(code[k]));
      DigitsOfNumber(ds);
      forall k | 0 <= k < |code| ensures CodeOf(NumberOf(code))[k] == code[k] { IndexIsAlphabet(code[k]); }
    }
  }

  // ---- what a viewer types ---------------------------------------------------------------------

  function UpperChar(c: char): char {
    if 'a' <= c <= 'z' then (c as int - 'a' as int + 'A' as int) as char else c
  }

  function Upper(c: char): string { [UpperChar(c)] }

  predicate IsSeparator(c: char) { IsSpace(c) || c == '.' || c == '_' || c == '-' }

  function NoSeparator(c: char): string { if IsSeparator(c) then "" else [c] }

  function OhIsZero(c: char): string { if c == 'O' then "0" else [c] }

  function EyeAndEllAreOne(c: char): string { if c == 'I' || c == 'L' then "1" else [c] }

  /** Upper case, then without separators, then with the confusable letters as digits. */
  function Comparison(input: string): string {
    FlatMap(EyeAndEllAreOne, FlatMap(OhIsZero, FlatMap(NoSeparator, FlatMap(Upper, input))))
  }

  function Normalize(input: string): Option<string> {
    var s := Comparison(input); if Canonical(s) then Some(s) else None
  }

  /** Groups of four. */
  function Format(canonical: string): string {
    if |canonical| <= 4 then canonical else canonical[..4] + "-" + Format(canonical[4..])
  }

  function Unconfused(c: char): char {
    if c == 'O' then '0' else if c == 'I' || c == 'L' then '1' else c
  }

  /** What one typed character comes to. */
  function Read(c: char): string { if IsSeparator(c) then "" else [Unconfused(UpperChar(c))] }

  lemma SeparatorsAreNoLetters(c: char)
    ensures IsSeparator(UpperChar(c)) <==> IsSeparator(c)
  {
    assert IsSeparator(c) ==> !('a' <= c <= 'z') && !('A' <= c <= 'Z');
    assert 'a' <= c <= 'z' ==> 'A' <= UpperChar(c) <= 'Z';
  }

  lemma UpperThenNoSeparator(c: char)
    ensures FlatMap(NoSeparator, Upper(c)) == (if IsSeparator(c) then "" else Upper(c))
  {
    OnePass(NoSeparator, UpperChar(c));
    SeparatorsAreNoLetters(c);
  }

  lemma OnePass(f: char -> string, c: char)
    ensures FlatMap(f, [c]) == f(c)
  {
    assert [c][..0] == "";
    assert FlatMap(f, [c][..0]) == "";
  }

  lemma TwoPasses(u: char)
    ensures FlatMap(EyeAndEllAreOne, FlatMap(OhIsZero, [u])) == [Unconfused(u)]
  {
    var v := if u == 'O' then '0' else u;
    OnePass(OhIsZero, u);
    assert OhIsZero(u) == [v];
    OnePass(EyeAndEllAreOne, v);
  }

  lemma OneChar(c: char)
    ensures FlatMap(EyeAndEllAreOne, FlatMap(OhIsZero, if IsSeparator(c) then "" else Upper(c))) == Read(c)
  {
    if IsSeparator(c) {
      assert FlatMap(OhIsZero, "") == "" && FlatMap(EyeAndEllAreOne, "") == "";
    } else {
      TwoPasses(UpperChar(c));
    }
  }

  /** The four passes together read one character at a time. */
  lemma ReadsCharByChar(input: string)
    ensures Comparison(input) == FlatMap(Read, input)
  {
    var upperNoSep := (c: char) => if IsSeparator(c) then "" else Upper(c);
    var afterOh := (c: char) => FlatMap(OhIsZero, upperNoSep(c));
    forall c | c in input ensures upperNoSep(c) == FlatMap(NoSeparator, Upper(c)) { UpperThenNoSeparator(c); }
    FlatMapFuses(Upper, NoSeparator, upperNoSep, input);
    FlatMapFuses(upperNoSep, OhIsZero, afterOh, input);
    forall c | c in input ensures Read(c) == FlatMap(EyeAndEllAreOne, afterOh(c)) { OneChar(c); }
    FlatMapFuses(afterOh, EyeAndEllAreOne, Read, input);
  }

  lemma CrockfordReadsItself(c: char)
    requires IsCrockford(c)
    ensures Read(c) == [c]
  {
    assert !IsSeparator(c) && UpperChar(c) == c && Unconfused(c) == c;
  }

  lemma {:induction false} CodesReadThemselves(s: string)
    requires forall k :: 0 <= k < |s| ==> IsCrockford(s[k])
    ensures FlatMap(Read, s) == s
  {
    if s == "" {
    } else {
      CodesReadThemselves(s[..|s| - 1]);
      CrockfordReadsItself(s[|s| - 1]);
      assert s == s[..|s| - 1] + [s[|s| - 1]];
    }
  }

  lemma {:induction false} FormatReadsTheSame(s: string)
    ensures FlatMap(Read, Format(s)) == FlatMap(Read, s)
  {
    if |s| > 4 {
      FormatReadsTheSame(s[4..]);
      FlatMapJoins(Read, s[..4] + "-", Format(s[4..]));
      FlatMapJoins(Read, s[..4], "-");
      OnePass(Read, '-');
      FlatMapJoins(Read, s[..4], s[4..]);
      assert s == s[..4] + s[4..];
    }
  }

  /** The display form of a code reads back as the code. */
  lemma FormatRoundTrips(code: string)
    requires Canonical(code)
    ensures Normalize(Format(code)) == Some(code)
  {
    ReadsCharByChar(Format(code));
    FormatReadsTheSame(code);
    CodesReadThemselves(code);
  }

  /** The display form itself. */
  lemma FormatIsThreeGroups(code: string)
    requires Canonical(code)
    ensures Format(code) == code[..4] + "-" + code[4..8] + "-" + code[8..]
  {
    var rest := code[4..];
    assert rest[..4] == code[4..8] && rest[4..] == code[8..];
    assert Format(code[8..]) == code[8..];
    assert Format(rest) == code[4..8] + "-" + code[8..];
    assert code[..4] + "-" + (code[4..8] + "-" + code[8..]) == code[..4] + "-" + code[4..8] + "-" + code[8..];
  }

  /** Characters a viewer may take for one another. */
  predicate Confusable(a: char, b: char) {
    || UpperChar(a) == UpperChar(b)
    || (LikeZero(a) && LikeZero(b))
    || (LikeOne(a) && LikeOne(b))
  }

  predicate LikeZero(c: char) { c == '0' || c == 'O' || c == 'o' }

  predicate LikeOne(c: char) { c == '1' || c == 'I' || c == 'i' || c == 'L' || c == 'l' }

  lemma SameReading(a: char, b: char)
    requires Confusable(a, b)
    ensures Read(a) == Read(b)
  {
    SeparatorsAreNoLetters(a);
    SeparatorsAreNoLetters(b);
    assert LikeZero(a) ==> !IsSeparator(a) && Unconfused(UpperChar(a)) == '0';
    assert LikeOne(a) ==> !IsSeparator(a) && Unconfused(UpperChar(a)) == '1';
    assert LikeZero(b) ==> !IsSeparator(b) && Unconfused(UpperChar(b)) == '0';
    assert LikeOne(b) ==> !IsSeparator(b) && Unconfused(UpperChar(b)) == '1';
  }

  /** Two typings that agree place by place, up to case and to what looks like a zero or a one. */
  predicate Alike(a: string, b: string) { |a| == |b| && forall i :: 0 <= i < |a| ==> Confusable(a[i], b[i]) }

  lemma {:induction false} AlikeReading(a: string, b: string)
    requires Alike(a, b)
    ensures FlatMap(Read, a) == FlatMap(Read, b)
  {
    if a == "" {
    } else {
      AlikeReading(a[..|a| - 1], b[..|b| - 1]);
      SameReading(a[|a| - 1], b[|b| - 1]);
    }
  }

  /** However many places differ that way, two typings give the same code or the same refusal. */
  lemma AlikeTypingsReadTheSame(a: string, b: string)
    requires Alike(a, b)
    ensures Normalize(a) == Normalize(b)
  {
    ReadsCharByChar(a);
    ReadsCharByChar(b);
    AlikeReading(a, b);
  }

  /** In particular with one confusable character typed for another. */
  lemma ConfusionsReadTheSame(left: string, a: char, b: char, right: string)
    requires Confusable(a, b)
    ensures Normalize(left + [a] + right) == Normalize(left + [b] + right)
  {
    AlikeTypingsReadTheSame(left + [a] + right, left + [b] + right);
  }

  /** A separator makes no difference, wherever it is typed. */
  lemma SeparatorsAreIgnored(left: string, sep: char, right: string)
    requires IsSeparator(sep)
    ensures Normalize(left + [sep] + right) == Normalize(left + right)
  {
    ReadsCharByChar(left + [sep] + right);
    ReadsCharByChar(left + right);
    Around(left, sep, right);
    FlatMapJoins(Read, left, right);
    assert FlatMap(Read, left) + "" + FlatMap(Read, right) == FlatMap(Read, left) + FlatMap(Read, right);
  }

  lemma Around(left: string, c: char, right: string)
    ensures FlatMap(Read, left + [c] + right) == FlatMap(Read, left) + Read(c) + FlatMap(Read, right)
  {
    FlatMapJoins(Read, left + [c], right);
    FlatMapJoins(Read, left, [c]);
    OnePass(Read, c);
  }

  /** Whatever is accepted is a code, already in the form everything compares. */
  lemma NormalizeIsStable(input: string)
    requires Normalize(input).Some?
    ensures Canonical(Normalize(input).value) && Normalize(Normalize(input).value) == Normalize(input)
  {
    var c := Normalize(input).value;
    ReadsCharByChar(c);
    CodesReadThemselves(c);
  }

  /** The code a digest gives, and that reading its display form gives back the digest's top 60 bits. */
  method PairingCode(digest: seq<Byte>) returns (shown: string)
    requires |digest| >= 8
    ensures shown == Format(CodeOf(Value(digest[..8]) / 16))
    ensures Normalize(shown) == Some(CodeOf(Value(digest[..8]) / 16))
  {
    var ds := SliceDigest(digest);
    var canonical := seq(PAIRING_CODE_LENGTH, k requires 0 <= k < PAIRING_CODE_LENGTH => CROCKFORD_ALPHABET[ds[k]]);
    forall k | 0 <= k < PAIRING_CODE_LENGTH ensures canonical[k] == CharOf(ds[k]) { CharIsInAlphabet(ds[k]); }
    assert canonical == CodeOf(Value(digest[..8]) / 16);
    shown := Format(canonical);
    FormatRoundTrips(canonical);
  }
}
