/** Fixed-width fields: padded alphanumeric strings and decimal numbers, written in place. */
module Packing {
  import opened Types

  const SPACE: Byte := 32
  const ZERO: Byte := 48

  // ---------------------------------------------------------------------
  // Characters and areas of a buffer

  predicate IsDigit(b: Byte) { 48 <= b <= 57 }

  predicate IsAlnum(b: Byte) { IsDigit(b) || 65 <= b <= 90 || 97 <= b <= 122 }

  predicate AllAlnum(s: seq<Byte>) { forall k | 0 <= k < |s| :: IsAlnum(s[k]) }

  predicate AllDigits(s: seq<Byte>) { forall k | 0 <= k < |s| :: IsDigit(s[k]) }

  /** What the setters accept for a field of the given length. */
  predicate ValidField(s: seq<Byte>, length: nat) { |s| <= length && AllAlnum(s) }

  function Spaces(n: nat): seq<Byte> { seq(n, _ => SPACE) }

  /** The buffer `s` with the area starting at `at` replaced by `area`. */
  function Spliced(s: seq<Byte>, at: nat, area: seq<Byte>): seq<Byte>
    requires at + |area| <= |s|
  {
    s[..at] + area + s[at + |area|..]
  }

  /** Two adjacent areas written one after the other are one area. */
  lemma SplicedTwice(was: seq<Byte>, at: nat, first: seq<Byte>, second: seq<Byte>)
    requires at + |first| + |second| <= |was|
    ensures Spliced(Spliced(was, at, first), at + |first|, second) == Spliced(was, at, first + second)
  {
    var once := Spliced(was, at, first);
    assert once[..at + |first|] == was[..at] + first;
    assert once[at + |first| + |second|..] == was[at + |first| + |second|..];
  }

  /** The same, said of each byte. */
  predicate Written(was: seq<Byte>, at: nat, area: seq<Byte>, now: seq<Byte>) {
    && |now| == |was| && at + |area| <= |was|
    && (forall k | 0 <= k < at :: now[k] == was[k])
    && (forall k | at <= k < at + |area| :: now[k] == area[k - at])
    && (forall k | at + |area| <= k < |was| :: now[k] == was[k])
  }

  lemma WrittenIsSpliced(was: seq<Byte>, at: nat, area: seq<Byte>, now: seq<Byte>)
    requires Written(was, at, area, now)
    ensures now == Spliced(was, at, area)
  {
  }

  lemma SplicedBack(was: seq<Byte>, at: nat, first: seq<Byte>, second: seq<Byte>)
    requires at + |first| + |second| <= |was|
    ensures Spliced(Spliced(was, at + |first|, second), at, first) == Spliced(was, at, first + second)
  {
    var once := Spliced(was, at + |first|, second);
    assert once[at + |first|..] == second + was[at + |first| + |second|..];
  }

  function Truncated(s: seq<Byte>, length: nat): seq<Byte> {
    if |s| > length then s[..length] else s
  }

  // ---------------------------------------------------------------------
  // Strings padded on the right

  function AlnumPrefix(s: seq<Byte>): seq<Byte> {
    if s != [] && IsAlnum(s[0]) then [s[0]] + AlnumPrefix(s[1..]) else []
  }

  function RightPadded(s: seq<Byte>, length: nat): (r: seq<Byte>)
    ensures |r| == length
  {
    AlnumPrefixLength(Truncated(s, length));
    var field := AlnumPrefix(Truncated(s, length));
    field + Spaces(length - |field|)
  }

  lemma {:induction false} AlnumPrefixLength(s: seq<Byte>)
    ensures |AlnumPrefix(s)| <= |s|
  {
    if s == [] || !IsAlnum(s[0]) {
    } else {
      AlnumPrefixLength(s[1..]);
    }
  }

  lemma FrontOfRest(s: seq<Byte>, k: nat)
    requires k < |s|
    ensures s[..k + 1] == [s[0]] + s[1..][..k]
  {
  }

  lemma {:induction false} AlnumPrefixUpTo(s: seq<Byte>, n: nat)
    requires n <= |s| && forall k | 0 <= k < n :: IsAlnum(s[k])
    requires n < |s| ==> !IsAlnum(s[n])
    ensures AlnumPrefix(s) == s[..n]
  {
    if n == 0 {
    } else {
      AlnumPrefixUpTo(s[1..], n - 1);
      FrontOfRest(s, n - 1);
    }
  }

  /** The prefix is the longest one: it is determined by where the first other character stands. */
  lemma AlnumPrefixIsLongest(s: seq<Byte>, n: nat)
    requires n <= |s| && AllAlnum(s[..n])
    requires n < |s| ==> !IsAlnum(s[n])
    ensures AlnumPrefix(s) == s[..n]
  {
    forall k | 0 <= k < n ensures IsAlnum(s[k]) {
      assert s[k] == s[..n][k];
    }
    AlnumPrefixUpTo(s, n);
  }

  lemma {:induction false} AlnumPrefixEnd(s: seq<Byte>) returns (n: nat)
    ensures n <= |s| && forall k | 0 <= k < n :: IsAlnum(s[k])
    ensures n < |s| ==> !IsAlnum(s[n])
  {
    if s == [] || !IsAlnum(s[0]) {
      n := 0;
    } else {
      n := AlnumPrefixEnd(s[1..]);
      assert forall k | 1 <= k < |s| :: s[k] == s[1..][k - 1];
      n := n + 1;
    }
  }

  lemma AlnumPrefixSplit(s: seq<Byte>)
    ensures |AlnumPrefix(s)| <= |s| && AlnumPrefix(s) == s[..|AlnumPrefix(s)|]
    ensures AllAlnum(AlnumPrefix(s))
    ensures |AlnumPrefix(s)| < |s| ==> !IsAlnum(s[|AlnumPrefix(s)|])
  {
    var n := AlnumPrefixEnd(s);
    AlnumPrefixUpTo(s, n);
  }

  /** What a packed string unpacks to: truncate, then keep the longest alphanumeric prefix. */
  function NormalPrefix(s: seq<Byte>, length: nat): seq<Byte> { AlnumPrefix(Truncated(s, length)) }

  lemma PrefixOfAlnum(s: seq<Byte>)
    requires AllAlnum(s)
    ensures AlnumPrefix(s) == s
  {
    assert s[..|s|] == s;
    AlnumPrefixIsLongest(s, |s|);
  }

  lemma PrefixBeforeSpaces(field: seq<Byte>, pad: nat)
    requires AllAlnum(field)
    ensures AlnumPrefix(field + Spaces(pad)) == field
  {
    var packed := field + Spaces(pad);
    assert packed[..|field|] == field;
    AlnumPrefixIsLongest(packed, |field|);
  }

  lemma NormalPrefixValid(s: seq<Byte>, length: nat)
    ensures ValidField(NormalPrefix(s, length), length)
    ensures NormalPrefix(s, length) == s <==> ValidField(s, length)
  {
    AlnumPrefixSplit(Truncated(s, length));
    if ValidField(s, length) {
      PrefixOfAlnum(s);
    }
  }

  lemma RightPaddedRoundTrip(s: seq<Byte>, length: nat)
    ensures AlnumPrefix(RightPadded(s, length)) == NormalPrefix(s, length)
    ensures ValidField(NormalPrefix(s, length), length)
    ensures NormalPrefix(NormalPrefix(s, length), length) == NormalPrefix(s, length)
    ensures NormalPrefix(s, length) == s <==> ValidField(s, length)
  {
    NormalPrefixValid(s, length);
    var field := NormalPrefix(s, length);
    NormalPrefixValid(field, length);
    PrefixBeforeSpaces(field, length - |field|);
  }

  method FirstNotAlnum(s: seq<Byte>) returns (n: nat)
    ensures n <= |s| && AlnumPrefix(s) == s[..n]
  {
    n := 0;
    while n < |s| && IsAlnum(s[n])
      invariant 0 <= n <= |s|
      invariant AllAlnum(s[..n])
    {
      n := n + 1;
    }
    AlnumPrefixIsLongest(s, n);
  }

  method PackRightPadded(str: seq<Byte>, data: array<Byte>, at: nat, length: nat)
    requires at + length <= data.Length
    modifies data
    ensures data[..] == Spliced(old(data[..]), at, RightPadded(str, length))
  {
    var s := str;
    if |s| > length {
      s := s[..length];
    }
    var n := FirstNotAlnum(s);
    ghost var was, field := data[..], s[..n];
    assert RightPadded(str, length) == field + Spaces(length - |field|);
    Fill(data, at, s[..n]);
    Fill(data, at + n, Spaces(length - n));
    SplicedTwice(was, at, field, Spaces(length - |field|));
  }

  method UnpackRightPadded(str: seq<Byte>, data: array<Byte>, at: nat, length: nat) returns (r: seq<Byte>)
    requires at + length <= data.Length
    ensures r == AlnumPrefix(data[at..at + length]) + str
  {
    var n := FirstNotAlnum(data[at..at + length]);
    r := data[at..at + n] + str;
  }

  /** Copies `bytes` into the buffer. */
  method Fill(data: array<Byte>, at: nat, bytes: seq<Byte>)
    requires at + |bytes| <= data.Length
    modifies data
    ensures data[..] == Spliced(old(data[..]), at, bytes)
  {
    var i := 0;
    while i < |bytes|
      invariant 0 <= i <= |bytes|
      invariant forall k | 0 <= k < i :: data[at + k] == bytes[k]
      invariant forall k | 0 <= k < data.Length && !(at <= k < at + i) :: data[k] == old(data[k])
    {
      data[at + i] := bytes[i];
      i := i + 1;
    }
    ghost var want := Spliced(old(data[..]), at, bytes);
    forall k | 0 <= k < data.Length ensures data[k] == want[k] {
      if at <= k < at + |bytes| {
        assert data[k] == data[at + (k - at)] == bytes[k - at];
      }
    }
  }

  // ---------------------------------------------------------------------
  // Strings padded on the left

  function AlnumSuffix(s: seq<Byte>): seq<Byte> {
    if s != [] && IsAlnum(s[|s| - 1]) then AlnumSuffix(s[..|s| - 1]) + [s[|s| - 1]] else []
  }

  function LeftPadded(s: seq<Byte>, length: nat): (r: seq<Byte>)
    ensures |r| == length
  {
    AlnumSuffixLength(Truncated(s, length));
    var field := AlnumSuffix(Truncated(s, length));
    Spaces(length - |field|) + field
  }

  lemma {:induction false} AlnumSuffixLength(s: seq<Byte>)
    ensures |AlnumSuffix(s)| <= |s|
  {
    if s == [] || !IsAlnum(s[|s| - 1]) {
    } else {
      AlnumSuffixLength(s[..|s| - 1]);
    }
  }

  lemma BackOfFront(s: seq<Byte>, k: nat)
    requires k < |s|
    ensures s[k..] == s[..|s| - 1][k..] + [s[|s| - 1]]
  {
  }

  lemma {:induction false} AlnumSuffixFrom(s: seq<Byte>, n: nat)
    requires n <= |s| && forall k | n <= k < |s| :: IsAlnum(s[k])
    requires 0 < n ==> !IsAlnum(s[n - 1])
    ensures AlnumSuffix(s) == s[n..]
  {
    if n == |s| {
    } else {
      AlnumSuffixFrom(s[..|s| - 1], n);
      BackOfFront(s, n);
    }
  }

  lemma AlnumSuffixIsLongest(s: seq<Byte>, n: nat)
    requires n <= |s| && AllAlnum(s[n..])
    requires 0 < n ==> !IsAlnum(s[n - 1])
    ensures AlnumSuffix(s) == s[n..]
  {
    forall k | n <= k < |s| ensures IsAlnum(s[k]) {
      assert s[k] == s[n..][k - n];
    }
    AlnumSuffixFrom(s, n);
  }

  lemma {:induction false} AlnumSuffixStart(s: seq<Byte>) returns (n: nat)
    ensures n <= |s| && forall k | n <= k < |s| :: IsAlnum(s[k])
    ensures 0 < n ==> !IsAlnum(s[n - 1])
  {
    if s == [] || !IsAlnum(s[|s| - 1]) {
      n := |s|;
    } else {
      n := AlnumSuffixStart(s[..|s| - 1]);
    }
  }

  lemma AlnumSuffixSplit(s: seq<Byte>)
    ensures |AlnumSuffix(s)| <= |s| && AlnumSuffix(s) == s[|s| - |AlnumSuffix(s)|..]
    ensures AllAlnum(AlnumSuffix(s))
    ensures |AlnumSuffix(s)| < |s| ==> !IsAlnum(s[|s| - |AlnumSuffix(s)| - 1])
  {
    var n := AlnumSuffixStart(s);
    AlnumSuffixFrom(s, n);
  }

  /** What a packed session unpacks to: truncate at the end, then keep the longest alphanumeric suffix. */
  function NormalSuffix(s: seq<Byte>, length: nat): seq<Byte> { AlnumSuffix(Truncated(s, length)) }

  lemma SuffixOfAlnum(s: seq<Byte>)
    requires AllAlnum(s)
    ensures AlnumSuffix(s) == s
  {
    assert s[0..] == s;
    AlnumSuffixIsLongest(s, 0);
  }

  lemma SuffixAfterSpaces(pad: nat, field: seq<Byte>)
    requires AllAlnum(field)
    ensures AlnumSuffix(Spaces(pad) + field) == field
  {
    var packed := Spaces(pad) + field;
    assert packed[pad..] == field;
    assert 0 < pad ==> packed[pad - 1] == SPACE;
    AlnumSuffixIsLongest(packed, pad);
  }

  lemma NormalSuffixValid(s: seq<Byte>, length: nat)
    ensures ValidField(NormalSuffix(s, length), length)
    ensures NormalSuffix(s, length) == s <==> ValidField(s, length)
  {
    AlnumSuffixSplit(Truncated(s, length));
    if ValidField(s, length) {
      SuffixOfAlnum(s);
    }
  }

  lemma LeftPaddedRoundTrip(s: seq<Byte>, length: nat)
    ensures AlnumSuffix(LeftPadded(s, length)) == NormalSuffix(s, length)
    ensures ValidField(NormalSuffix(s, length), length)
    ensures NormalSuffix(NormalSuffix(s, length), length) == NormalSuffix(s, length)
    ensures NormalSuffix(s, length) == s <==> ValidField(s, length)
  {
    NormalSuffixValid(s, length);
    var field := NormalSuffix(s, length);
    NormalSuffixValid(field, length);
    SuffixAfterSpaces(length - |field|, field);
  }

  method LastNotAlnum(s: seq<Byte>) returns (n: nat)
    ensures n <= |s| && AlnumSuffix(s) == s[n..]
  {
    n := |s|;
    while n > 0 && IsAlnum(s[n - 1])
      invariant 0 <= n <= |s|
      invariant AllAlnum(s[n..])
    {
      n := n - 1;
    }
    AlnumSuffixIsLongest(s, n);
  }

  method PackLeftPadded(str: seq<Byte>, data: array<Byte>, at: nat, length: nat)
    requires at + length <= data.Length
    modifies data
    ensures data[..] == Spliced(old(data[..]), at, LeftPadded(str, length))
  {
    var s := str;
    if |s| > length {
      s := s[..length];
    }
    var n := LastNotAlnum(s);
    var sub := s[n..];
    ghost var was, pad := data[..], Spaces(length - |sub|);
    assert LeftPadded(str, length) == pad + sub;
    Fill(data, at, Spaces(length - |sub|));
    Fill(data, at + length - |sub|, sub);
    SplicedTwice(was, at, pad, sub);
  }

  method UnpackLeftPadded(str: seq<Byte>, data: array<Byte>, at: nat, length: nat) returns (r: seq<Byte>)
    requires at + length <= data.Length
    ensures r == AlnumSuffix(data[at..at + length]) + str
  {
    var n := LastNotAlnum(data[at..at + length]);
    r := data[at + n..at + length] + str;
  }

  // ---------------------------------------------------------------------
  // Decimal numbers padded on the left

  /** The usual decimal notation. */
  function Decimal(i: nat): (r: seq<Byte>)
    ensures r != []
  {
    if i < 10 then [ZERO + i] else Decimal(i / 10) + [ZERO + i % 10]
  }

  function Value(digits: seq<Byte>): nat
    requires AllDigits(digits)
  {
    if digits == [] then 0
    else Value(digits[..|digits| - 1]) * 10 + (digits[|digits| - 1] - ZERO)
  }

  function PowerOfTen(k: nat): nat { if k == 0 then 1 else 10 * PowerOfTen(k - 1) }

  lemma {:induction false} DecimalRoundTrip(i: nat)
    ensures AllDigits(Decimal(i)) && Value(Decimal(i)) == i
    ensures i > 0 ==> Decimal(i)[0] != ZERO
    ensures i == 0 ==> Decimal(i) == [ZERO]
  {
    if i >= 10 {
      DecimalRoundTrip(i / 10);
      var d := Decimal(i);
      assert d[..|d| - 1] == Decimal(i / 10);
    } else {
      assert Decimal(i)[..0] == [];
    }
  }

  lemma {:induction false} DecimalLength(i: nat, k: nat)
    requires k > 0 && i < PowerOfTen(k)
    ensures |Decimal(i)| <= k
  {
    if i < 10 {
    } else {
      assert k > 1;
      DecimalLength(i / 10, k - 1);
    }
  }

  lemma TwentyDigitsSuffice(i: nat)
    requires i < TWO_TO_THE_64
    ensures |Decimal(i)| <= SEQUENCE_NUMBER_LENGTH
  {
    assert PowerOfTen(5) == 100_000;
    assert PowerOfTen(10) == 100_000 * PowerOfTen(5);
    assert PowerOfTen(15) == 100_000 * PowerOfTen(10);
    assert PowerOfTen(20) == 100_000 * PowerOfTen(15);
    DecimalLength(i, SEQUENCE_NUMBER_LENGTH);
  }

  function SequenceNumberField(i: nat): (r: seq<Byte>)
    requires i < TWO_TO_THE_64
    ensures |r| == SEQUENCE_NUMBER_LENGTH
  {
    TwentyDigitsSuffice(i);
    Spaces(SEQUENCE_NUMBER_LENGTH - |Decimal(i)|) + Decimal(i)
  }

  /** The longest run of digits at the end of a field. */
  function DigitSuffix(s: seq<Byte>): (r: seq<Byte>)
    ensures AllDigits(r)
  {
    if s != [] && IsDigit(s[|s| - 1]) then DigitSuffix(s[..|s| - 1]) + [s[|s| - 1]] else []
  }

  lemma {:induction false} DigitSuffixFrom(s: seq<Byte>, n: nat)
    requires n <= |s| && forall k | n <= k < |s| :: IsDigit(s[k])
    requires 0 < n ==> !IsDigit(s[n - 1])
    ensures DigitSuffix(s) == s[n..]
  {
    if n == |s| {
    } else {
      DigitSuffixFrom(s[..|s| - 1], n);
      BackOfFront(s, n);
    }
  }

  lemma DigitSuffixIsLongest(s: seq<Byte>, n: nat)
    requires n <= |s| && AllDigits(s[n..])
    requires 0 < n ==> !IsDigit(s[n - 1])
    ensures DigitSuffix(s) == s[n..]
  {
    forall k | n <= k < |s| ensures IsDigit(s[k]) {
      assert s[k] == s[n..][k - n];
    }
    DigitSuffixFrom(s, n);
  }

  /** The number a 20-byte field stands for, as a 64-bit unsigned integer. */
  function FieldNumber(s: seq<Byte>): nat { Value(DigitSuffix(s)) % TWO_TO_THE_64 }

  lemma Remainder(x: nat, q: nat, r: nat)
    requires x == q * TWO_TO_THE_64 + r && r < TWO_TO_THE_64
    ensures x % TWO_TO_THE_64 == r
  {
  }

  lemma DigitsAfterSpaces(pad: nat, digits: seq<Byte>)
    requires AllDigits(digits)
    ensures DigitSuffix(Spaces(pad) + digits) == digits
    ensures FieldNumber(Spaces(pad) + digits) == Value(digits) % TWO_TO_THE_64
  {
    var field := Spaces(pad) + digits;
    assert field[pad..] == digits;
    assert 0 < pad ==> field[pad - 1] == SPACE;
    DigitSuffixIsLongest(field, pad);
  }

  lemma SequenceNumberRoundTrip(i: nat)
    requires i < TWO_TO_THE_64
    ensures FieldNumber(SequenceNumberField(i)) == i
  {
    TwentyDigitsSuffice(i);
    var digits := Decimal(i);
    assert AllDigits(digits) && Value(digits) == i by {
      DecimalRoundTrip(i);
    }
    var pad := SEQUENCE_NUMBER_LENGTH - |digits|;
    assert SequenceNumberField(i) == Spaces(pad) + digits;
    DigitsAfterSpaces(pad, digits);
    Remainder(i, 0, i);
  }

  /** The layout: spaces, then digits, and a leading zero only for the number zero. */
  lemma SequenceNumberLayout(i: nat) returns (pad: nat)
    requires i < TWO_TO_THE_64
    ensures pad < SEQUENCE_NUMBER_LENGTH
    ensures forall k | 0 <= k < pad :: SequenceNumberField(i)[k] == SPACE
    ensures forall k | pad <= k < SEQUENCE_NUMBER_LENGTH :: IsDigit(SequenceNumberField(i)[k])
    ensures SequenceNumberField(i)[pad] == ZERO ==> i == 0 && pad == SEQUENCE_NUMBER_LENGTH - 1
  {
    DecimalRoundTrip(i);
    TwentyDigitsSuffice(i);
    pad := SEQUENCE_NUMBER_LENGTH - |Decimal(i)|;
    assert SequenceNumberField(i)[pad..] == Decimal(i);
  }

  /** Reducing after each step is reducing once at the end. */
  lemma ReduceStep(v: nat, d: nat)
    ensures ((v % TWO_TO_THE_64) * 10 % TWO_TO_THE_64 + d) % TWO_TO_THE_64 == (v * 10 + d) % TWO_TO_THE_64
  {
    var q0, r0 := v / TWO_TO_THE_64, v % TWO_TO_THE_64;
    var q1, r1 := (r0 * 10) / TWO_TO_THE_64, (r0 * 10) % TWO_TO_THE_64;
    var q2, r2 := (r1 + d) / TWO_TO_THE_64, (r1 + d) % TWO_TO_THE_64;
    Remainder(v * 10 + d, 10 * q0 + q1 + q2, r2);
  }

  method PackSequenceNumber(i: nat, data: array<Byte>, at: nat)
    requires i < TWO_TO_THE_64
    requires at + SEQUENCE_NUMBER_LENGTH <= data.Length
    modifies data
    ensures data[..] == Spliced(old(data[..]), at, SequenceNumberField(i))
  {
    ghost var was, digits := data[..], Decimal(i);
    TwentyDigitsSuffice(i);
    var iter := PackDigits(i, data, at);
    var pad := Spaces(iter);
    SplicedBack(was, at, pad, digits);
    Fill(data, at, pad);
    FieldLooks(i, iter);
  }

  lemma FieldLooks(i: nat, iter: nat)
    requires i < TWO_TO_THE_64 && iter + |Decimal(i)| == SEQUENCE_NUMBER_LENGTH
    ensures SequenceNumberField(i) == Spaces(iter) + Decimal(i)
  {
  }

  /** The decimal digit of i that stands for 10 to the j. */
  function Digit(i: nat, j: nat): nat { Shifted(i, j) % 10 }

  /** What is left of i without its last j digits. */
  function Shifted(i: nat, j: nat): nat { if j == 0 then i else Shifted(i, j - 1) / 10 }

  lemma {:induction false} ShiftedFirst(i: nat, j: nat)
    requires j > 0
    ensures Shifted(i, j) == Shifted(i / 10, j - 1)
  {
    if j == 1 {
      assert Shifted(i, 0) == i;
    } else {
      ShiftedFirst(i, j - 1);
    }
  }

  lemma {:induction false} DecimalDigits(i: nat, j: nat)
    requires j < |Decimal(i)|
    ensures Decimal(i)[|Decimal(i)| - 1 - j] == 48 + Digit(i, j)
  {
    if j == 0 {
    } else {
      DecimalDigits(i / 10, j - 1);
      ShiftedFirst(i, j);
    }
  }

  /** As many digits as it takes to leave nothing. */
  lemma {:induction false} DigitsEnd(i: nat, j: nat)
    requires j > 0
    ensures Shifted(i, j) == 0 <==> j >= |Decimal(i)|
  {
    ShiftedFirst(i, j);
    if j == 1 {
      assert Shifted(i / 10, 0) == i / 10;
    } else if i < 10 {
      ShiftedZero(j - 1);
    } else {
      DigitsEnd(i / 10, j - 1);
    }
  }

  lemma {:induction false} ShiftedZero(j: nat)
    ensures Shifted(0, j) == 0
  {
    if j == 0 {
    } else {
      ShiftedZero(j - 1);
    }
  }

  lemma DigitsAreDecimal(i: nat, was: seq<Byte>, end: nat, now: seq<Byte>)
    requires |Decimal(i)| <= end <= |was| == |now|
    requires forall k | 0 <= k < |Decimal(i)| :: now[end - 1 - k] == 48 + Digit(i, k)
    requires forall k | 0 <= k < |was| && !(end - |Decimal(i)| <= k < end) :: now[k] == was[k]
    ensures now == Spliced(was, end - |Decimal(i)|, Decimal(i))
  {
    var at, decimal := end - |Decimal(i)|, Decimal(i);
    forall k | at <= k < end ensures now[k] == decimal[k - at] {
      DecimalDigits(i, end - 1 - k);
      assert now[end - 1 - (end - 1 - k)] == now[k];
    }
    WrittenIsSpliced(was, at, decimal, now);
  }

  /** The digits, from the last one back; `iter` is where they start. */
  method PackDigits(i: nat, data: array<Byte>, at: nat) returns (iter: nat)
    requires |Decimal(i)| <= SEQUENCE_NUMBER_LENGTH && at + SEQUENCE_NUMBER_LENGTH <= data.Length
    modifies data
    ensures iter + |Decimal(i)| == SEQUENCE_NUMBER_LENGTH
    ensures data[..] == Spliced(old(data[..]), at + iter, Decimal(i))
  {
    var rest := i;
    iter := SEQUENCE_NUMBER_LENGTH;
    ghost var done, end := 0, at + SEQUENCE_NUMBER_LENGTH;
    while iter != 0
      invariant 0 <= iter <= SEQUENCE_NUMBER_LENGTH && done == SEQUENCE_NUMBER_LENGTH - iter
      invariant done < |Decimal(i)| && rest == Shifted(i, done)
      invariant forall k | 0 <= k < done :: data[end - 1 - k] == 48 + Digit(i, k)
      invariant forall k | 0 <= k < data.Length && !(end - done <= k < end) :: data[k] == old(data[k])
    {
      iter := iter - 1;
      data[at + iter] := ZERO + rest % 10;
      rest := rest / 10;
      done := done + 1;
      DigitsEnd(i, done);
      if rest == 0 {
        break;
      }
    }
    DigitsAreDecimal(i, old(data[..]), end, data[..]);
  }

  method LastNotDigit(s: seq<Byte>) returns (n: nat)
    ensures n <= |s| && DigitSuffix(s) == s[n..] && AllDigits(s[n..])
  {
    n := |s|;
    while n > 0 && IsDigit(s[n - 1])
      invariant 0 <= n <= |s|
      invariant AllDigits(s[n..])
    {
      n := n - 1;
    }
    DigitSuffixIsLongest(s, n);
  }

  method UnpackSequenceNumber(data: array<Byte>, at: nat) returns (i: nat)
    requires at + SEQUENCE_NUMBER_LENGTH <= data.Length
    ensures i == FieldNumber(data[at..at + SEQUENCE_NUMBER_LENGTH])
    ensures i < TWO_TO_THE_64
  {
    var s := data[at..at + SEQUENCE_NUMBER_LENGTH];
    var n := LastNotDigit(s);
    var sub := s[n..];
    i := 0;
    var k := 0;
    while k < |sub|
      invariant 0 <= k <= |sub|
      invariant i == Value(sub[..k]) % TWO_TO_THE_64
    {
      ReduceStep(Value(sub[..k]), sub[k] - ZERO);
      assert sub[..k + 1][..k] == sub[..k];
      i := i * 10 % TWO_TO_THE_64;
      i := (i + (sub[k] - ZERO)) % TWO_TO_THE_64;
      k := k + 1;
    }
    assert sub[..|sub|] == sub;
  }

  // ---------------------------------------------------------------------
  // The bytes of a field

  /** A valid string packed to the right of nothing: the string, then spaces. */
  lemma RightPaddedBytes(s: seq<Byte>, length: nat)
    requires ValidField(s, length)
    ensures RightPadded(s, length)[..|s|] == s
    ensures forall k | |s| <= k < length :: RightPadded(s, length)[k] == 32
  {
    PrefixOfAlnum(s);
  }

  /** And to the left: spaces, then the string. */
  lemma LeftPaddedBytes(s: seq<Byte>, length: nat)
    requires ValidField(s, length)
    ensures forall k | 0 <= k < length - |s| :: LeftPadded(s, length)[k] == 32
    ensures LeftPadded(s, length)[length - |s|..] == s
  {
    SuffixOfAlnum(s);
  }

  /** A number packed: its digits, the ones last, behind as many spaces as it takes. */
  lemma SequenceNumberBytes(i: nat) returns (digits: nat)
    requires i < TWO_TO_THE_64
    ensures 1 <= digits <= 20
    ensures forall j | 0 <= j < digits :: SequenceNumberField(i)[19 - j] == 48 + Digit(i, j)
    ensures forall k | 0 <= k < 20 - digits :: SequenceNumberField(i)[k] == 32
    ensures forall j | digits <= j :: Digit(i, j) == 0
  {
    TwentyDigitsSuffice(i);
    digits := |Decimal(i)|;
    forall j | 0 <= j < digits ensures SequenceNumberField(i)[19 - j] == 48 + Digit(i, j) {
      DecimalDigits(i, j);
    }
    forall j | digits <= j ensures Digit(i, j) == 0 {
      DigitsEnd(i, j);
    }
  }
}
