/**
 Accounts as text, and the hashes of blocks.  An account is written as a number of 296 bits, the
 public key followed by a checksum of five bytes, in 60 digits to the base 32.
 */
module NanoUtil {
  import opened Bits
  import opened Bytes
  import opened Division
  import opened KStream
  import opened NanoBlocks
  import opened Simd
  import Blake2Hash
  import Blake2Spec

  /** account_lookup. */
  const ALPHABET: string := "13456789abcdefghijkmnopqrstuwxyz"

  const PREFIX: string := "nano_"

  // ---- Numbers from bytes ----

  /** Bytes as a number, most significant first. */
  function BigEndian(s: seq<byte>): (n: nat)
    ensures n < Pow2(8 * |s|)
  {
    if |s| == 0 then 0
    else
      assert Pow2(8 * |s|) == 256 * Pow2(8 * (|s| - 1)) by { Pow2Values(); Pow2Sum(8, 8 * (|s| - 1)); }
      256 * BigEndian(s[..|s| - 1]) + Num(s[|s| - 1])
  }

  /** Bytes as a number, least significant first. */
  function LittleEndian(s: seq<byte>): nat { BigEndian(Swapped(s)) }

  /** Each byte counts 256 times what the one before it does. */
  lemma LittleEndianIs(b: byte, s: seq<byte>)
    ensures LittleEndian([]) == 0 && LittleEndian([b] + s) == Num(b) + 256 * LittleEndian(s)
  {
    hide Num, Pow2;
    assert Swapped([b] + s) == Swapped(s) + [b];
    assert (Swapped(s) + [b])[..|s|] == Swapped(s);
  }

  /** n as k bytes, most significant first. */
  function ToBytes(n: nat, k: nat): (s: seq<byte>)
    ensures |s| == k
  {
    if k == 0 then [] else ToBytes(n / 256, k - 1) + [(n % 256) as byte]
  }

  lemma {:induction false} BytesBack(s: seq<byte>)
    ensures ToBytes(BigEndian(s), |s|) == s
  {
    if |s| > 0 {
      var front, last := s[..|s| - 1], s[|s| - 1];
      BytesBack(front);
      var n := BigEndian(s);
      assert n / 256 == BigEndian(front) && n % 256 == Num(last);
      assert (Num(last)) as byte == last;
      assert front + [last] == s;
    }
  }

  const WORD256: nat := 0x1_0000_0000_0000_0000_0000_0000_0000_0000_0000_0000_0000_0000_0000_0000_0000_0000

  /** number: shifts in byte after byte, in 256 bits. */
  method Number(bytes: seq<byte>) returns (result: nat)
    ensures result == BigEndian(bytes) % WORD256
  {
    hide BigEndian, Or, Shifted;
    result := 0;
    var shift := 0;
    var i := 0;
    NoBytesIn();
    while i < |bytes|
      invariant 0 <= i <= |bytes| && shift == (if i == 0 then 0 else 8) && (i == 0 ==> result == 0)
      invariant result == BigEndian(bytes[..i]) % WORD256
    {
      ByteBehind(bytes, i);
      ShiftedIn(BigEndian(bytes[..i]), result, Num(bytes[i]), shift);
      result := Shifted(result, shift) % WORD256;
      result := Or(result, Num(bytes[i]));
      shift := 8;
      i := i + 1;
    }
    assert bytes[..i] == bytes;
  }

  lemma NoBytesIn()
    ensures BigEndian([]) % WORD256 == 0
  {}

  lemma ByteBehind(bytes: seq<byte>, i: nat)
    requires i < |bytes|
    ensures BigEndian(bytes[..i + 1]) == 256 * BigEndian(bytes[..i]) + Num(bytes[i])
  {
    assert bytes[..i + 1][..i] == bytes[..i];
  }

  /** Shifting in a byte extends the number, as far as 256 bits go. */
  lemma ShiftedIn(n: nat, r: nat, b: nat, shift: nat)
    requires r == n % WORD256 && b < 256 && (shift == 8 || (shift == 0 && r == 0))
    ensures Or(Shifted(r, shift) % WORD256, b) == (256 * n + b) % WORD256
  {
    hide Or, Pow2;
    Pow2Values();
    Word256();
    Pow2Sum(248, 8);
    ByteIntoWord(n, r, b, Pow2(248));
    if shift == 0 {
      assert Shifted(r, 0) == 0;
      assert Shifted(0, 8) == 0;
    }
    OrIntoZeros(r % Pow2(248), b, 8);
  }

  lemma ByteIntoWord(n: nat, r: nat, b: nat, m: nat)
    requires m > 0 && WORD256 == m * 256 && r == n % WORD256 && b < 256
    ensures r * 256 % WORD256 == r % m * 256
    ensures (256 * n + b) % WORD256 == r % m * 256 + b
  {
    var q := r / m;
    assert r == q * m + r % m;
    assert r * 256 == q * WORD256 + r % m * 256;
    Below(r % m, m, b, 256);
    Below(r % m, m, 0, 256);
    Residue(r * 256, WORD256, q, r % m * 256);
    var k := n / WORD256;
    assert 256 * n + b == (256 * k + q) * WORD256 + (r % m * 256 + b);
    Residue(256 * n + b, WORD256, 256 * k + q, r % m * 256 + b);
  }

  lemma Word256()
    ensures Pow2(256) == WORD256
  {
    hide Pow2;
    Pow2Values();
    Pow2Sum(64, 64);
    Pow2Sum(128, 128);
  }

  // ---- Digits ----

  /** n in k digits to the base 32, most significant first. */
  function Digits(n: nat, k: nat): (s: string)
    ensures |s| == k
  {
    if k == 0 then [] else Digits(n / 32, k - 1) + [ALPHABET[n % 32]]
  }

  /** account_encode. */
  function AccountEncode(value: nat): char
    requires value < 32
  {
    ALPHABET[value]
  }

  /** Where a character is in the alphabet. */
  function DigitValue(c: char, from: nat): (v: nat)
    requires from <= 32
    ensures v <= 32
    decreases 32 - from
  {
    if from == 32 then 32 else if ALPHABET[from] == c then from else DigitValue(c, from + 1)
  }

  /** The number that a string of digits stands for. */
  function ValueOf(s: string): nat {
    if |s| == 0 then 0 else 32 * ValueOf(s[..|s| - 1]) + DigitValue(s[|s| - 1], 0)
  }

  /** The digits are the characters '0' to '9' and 'a' to 'z', in this order, without '0', '2', 'l' and 'v'. */
  lemma AlphabetIs(c: char)
    ensures (exists i :: 0 <= i < 32 && ALPHABET[i] == c) <==>
            ('0' <= c <= '9' || 'a' <= c <= 'z') && c != '0' && c != '2' && c != 'l' && c != 'v'
    ensures forall i, j :: 0 <= i < j < 32 ==> ALPHABET[i] < ALPHABET[j]
  {
    if ('0' <= c <= '9' || 'a' <= c <= 'z') && c != '0' && c != '2' && c != 'l' && c != 'v' {
      DigitIs(c);
    }
    hide ALPHABET;
    forall i, j | 0 <= i < j < 32
      ensures ALPHABET[i] < ALPHABET[j]
    {
      AlphabetAscendsTo(i, j);
    }
  }

  lemma DigitIs(c: char)
    requires ('0' <= c <= '9' || 'a' <= c <= 'z') && c != '0' && c != '2' && c != 'l' && c != 'v'
    ensures exists i :: 0 <= i < 32 && ALPHABET[i] == c
  {
    var n := c as int;
    var i := if c == '1' then 0 else if c <= '9' then n - 50 else if c < 'l' then n - 97 + 8
             else if c < 'v' then n - 97 + 7 else n - 97 + 6;
    assert ALPHABET[i] == c;
  }

  lemma AlphabetAscends(i: nat)
    requires i < 31
    ensures ALPHABET[i] < ALPHABET[i + 1]
  {}

  lemma {:induction false} AlphabetAscendsTo(i: nat, j: nat)
    requires i < j < 32
    ensures ALPHABET[i] < ALPHABET[j]
  {
    hide ALPHABET;
    AlphabetAscends(j - 1);
    if i < j - 1 {
      AlphabetAscendsTo(i, j - 1);
    }
  }

  lemma {:induction false} DigitFound(v: nat, from: nat)
    requires from <= v < 32
    ensures DigitValue(ALPHABET[v], from) == v
    decreases v - from
  {
    hide ALPHABET;
    if from < v {
      AlphabetAscendsTo(from, v);
      DigitFound(v, from + 1);
    }
  }

  /** Reading digits undoes writing them. */
  lemma {:induction false} ValueOfDigits(n: nat, k: nat)
    requires n < Pow2(5 * k)
    ensures ValueOf(Digits(n, k)) == n
  {
    hide ALPHABET;
    if k > 0 {
      Pow2Sum(5, 5 * (k - 1));
      assert Pow2(5) == 32;
      ValueOfDigits(n / 32, k - 1);
      DigitFound(n % 32, 0);
      assert Digits(n, k)[..k - 1] == Digits(n / 32, k - 1);
    }
  }

  lemma {:induction false} FirstDigit(n: nat, k: nat)
    requires k > 0 && n < 2 * Pow2(5 * (k - 1))
    ensures Digits(n, k)[0] == ALPHABET[0] || Digits(n, k)[0] == ALPHABET[1]
  {
    hide ALPHABET;
    if k == 1 {
      assert Pow2(0) == 1;
    } else {
      Pow2Sum(5, 5 * (k - 2));
      assert Pow2(5) == 32;
      FirstDigit(n / 32, k - 1);
    }
  }

  // ---- Accounts ----

  /** The key and the checksum as one number. */
  function AccountNumber(key: seq<byte>, check: seq<byte>): nat {
    BigEndian(key) % WORD256 * Pow2(40) + LittleEndian(check)
  }

  function AccountText(key: seq<byte>, check: seq<byte>): (s: string)
    ensures |s| == 65 && s[..5] == PREFIX
  {
    PREFIX + Digits(AccountNumber(key, check), 60)
  }

  /** The key of an account, from its text. */
  function DecodeAccount(s: string): seq<byte>
    requires |s| == 65
  {
    hide Pow2, ValueOf, ToBytes;
    ToBytes(ValueOf(s[5..]) / Pow2(40), 32)
  }

  lemma AccountNumberFits(key: seq<byte>, check: seq<byte>)
    requires |key| == 32 && |check| == 5
    ensures AccountNumber(key, check) < Pow2(296) && Pow2(296) < Pow2(300)
    ensures AccountNumber(key, check) / Pow2(40) == BigEndian(key)
    ensures AccountNumber(key, check) % Pow2(40) == LittleEndian(check)
  {
    hide Pow2, BigEndian;
    Pow2Sum(256, 40);
    Pow2Sum(296, 4);
    Word256();
    Small(BigEndian(key), WORD256);
    assert Pow2(4) == 16 by { FourBits(); }
    Below(BigEndian(key), Pow2(256), LittleEndian(check), Pow2(40));
    Residue(AccountNumber(key, check), Pow2(40), BigEndian(key), LittleEndian(check));
  }

  lemma FourBits()
    ensures Pow2(4) == 16
  {}

  /** The text of an account determines its key, and the checksum. */
  lemma AccountDecodes(key: seq<byte>, check: seq<byte>)
    requires |key| == 32 && |check| == 5
    ensures DecodeAccount(AccountText(key, check)) == key
    ensures ValueOf(AccountText(key, check)[5..]) % Pow2(40) == LittleEndian(check)
    ensures Swapped(ToBytes(ValueOf(AccountText(key, check)[5..]) % Pow2(40), 5)) == check
  {
    hide Pow2, ValueOf, Digits, BigEndian, ToBytes;
    BytesBack(Swapped(check));
    assert Swapped(Swapped(check)) == check;
    var n := AccountNumber(key, check);
    AccountNumberFits(key, check);
    ValueOfDigits(n, 60);
    assert AccountText(key, check)[5..] == Digits(n, 60);
    BytesBack(key);
  }

  lemma AccountsDiffer(key: seq<byte>, check: seq<byte>, key': seq<byte>, check': seq<byte>)
    requires |key| == |key'| == 32 && |check| == |check'| == 5
    requires AccountText(key, check) == AccountText(key', check')
    ensures key == key'
  {
    hide AccountText, DecodeAccount;
    AccountDecodes(key, check);
    AccountDecodes(key', check');
  }

  /** Of the 60 digits the first holds only one bit. */
  lemma LeadingDigit(key: seq<byte>, check: seq<byte>)
    requires |key| == 32 && |check| == 5
    ensures AccountText(key, check)[5] == '1' || AccountText(key, check)[5] == '3'
  {
    hide Pow2, Digits, BigEndian;
    AccountNumberFits(key, check);
    Pow2Sum(1, 295);
    assert Pow2(1) == 2 by { OneBit(); }
    FirstDigit(AccountNumber(key, check), 60);
    assert ALPHABET[0] == '1' && ALPHABET[1] == '3';
  }

  lemma OneBit()
    ensures Pow2(1) == 2
  {}

  function Reversed(s: string): (r: string)
    ensures |r| == |s| && forall i :: 0 <= i < |s| ==> r[i] == s[|s| - 1 - i]
  {
    seq(|s|, i requires 0 <= i < |s| => s[|s| - 1 - i])
  }

  /** pub_to_account: the checksum is a BLAKE2b hash of five bytes, read as a little-endian number. */
  method PubToAccount(backend: Backend, publicBytes: seq<byte>) returns (account: string)
    ensures account == AccountText(publicBytes, Blake2Spec.Digest(Blake2Spec.V2b, 5, [], publicBytes))
  {
    hide Blake2Spec.Digest, BigEndian, Pow2, Or, And, ALPHABET;
    var hash := Blake2Hash.OneShot(Blake2Spec.V2b, backend, 5, publicBytes, []);
    var check := LittleEndian(hash.value);
    ghost var n := AccountNumber(publicBytes, hash.value);
    var number := Number(publicBytes);
    CheckFits(hash.value);
    OrIntoZeros(number, check, 40);
    number := Or(Shifted(number, 40), check);
    assert number == n;
    var destination: string := [];
    var i := 0;
    while i < 60
      invariant 0 <= i <= 60
      invariant Digits(number, 60 - i) + Reversed(destination) == Digits(n, 60)
    {
      AndOnes(number, 5);
      FiveBits();
      var r := And(number, 0x1f);
      assert Digits(number, 60 - i) == Digits(number / 32, 59 - i) + [AccountEncode(r)];
      assert Reversed(destination + [AccountEncode(r)]) == [AccountEncode(r)] + Reversed(destination);
      number := number / 32;
      destination := destination + [AccountEncode(r)];
      i := i + 1;
    }
    assert Digits(number, 0) == [];
    account := Reversed(destination + "_onan");
    assert account == PREFIX + Reversed(destination);
  }

  lemma FiveBits()
    ensures Pow2(5) == 32 && Ones(5) == 0x1f
  {}

  lemma CheckFits(check: seq<byte>)
    requires |check| == 5
    ensures LittleEndian(check) < Pow2(40)
  {}

  // ---- Hashes of blocks ----

  /** Thirty-one zeros and the type of state blocks. */
  const PREAMBLE: seq<byte> := Zeros(31) + [STATE]

  /** The fields that a block's hash covers. */
  function HashedFields(b: Block): seq<seq<byte>>
    requires !b.Ignored?
  {
    match b
    case State(account, previous, representative, balance, link, _, _) =>
      [PREAMBLE, account, previous, representative, balance, link]
    case Send(previous, destination, balance, _, _) => [previous, destination, balance]
    case Receive(previous, source, _, _) => [previous, source]
    case Open(source, representative, account, _, _) => [source, representative, account]
    case Change(previous, representative, _, _) => [previous, representative]
  }

  /**
   Together they are what a block is on the wire, up to its signature and work; of state blocks behind the
   preamble.
   */
  lemma HashCovers(b: Block)
    requires WellFormed(b) && !b.Ignored?
    ensures |Encode(b)| >= 72
    ensures Joined(HashedFields(b)) == (if b.State? then Zeros(31) + [6] else []) + Encode(b)[..|Encode(b)| - 72]
  {
    hide Store64, Joined;
    match b
    case State(a, p, r, bal, l, s, w) =>
      JoinedSix(PREAMBLE, a, p, r, bal, l);
      AllButTail(a + p + r + bal + l, s, Swapped(Store64(w)));
      assert PREAMBLE + (a + p + r + bal + l) == PREAMBLE + a + p + r + bal + l;
    case Send(p, d, bal, s, w) =>
      JoinedThree(p, d, bal);
      AllButTail(p + d + bal, s, Store64(w));
    case Receive(p, src, s, w) =>
      JoinedTwo(p, src);
      AllButTail(p + src, s, Store64(w));
    case Open(src, r, a, s, w) =>
      JoinedThree(src, r, a);
      AllButTail(src + r + a, s, Store64(w));
    case Change(p, r, s, w) =>
      JoinedTwo(p, r);
      AllButTail(p + r, s, Store64(w));
  }

  lemma AllButTail(front: seq<byte>, signature: seq<byte>, work: seq<byte>)
    requires |signature| == 64 && |work| == 8
    ensures |front + signature + work| >= 72
    ensures (front + signature + work)[..|front + signature + work| - 72] == front
  {}

  lemma JoinedTwo(a: seq<byte>, b: seq<byte>)
    ensures Joined([a, b]) == a + b
  {
    assert [a, b][1..] == [b] && [b][1..] == [];
    assert Joined([b]) == b + Joined([]);
  }

  lemma JoinedThree(a: seq<byte>, b: seq<byte>, c: seq<byte>)
    ensures Joined([a, b, c]) == a + b + c
  {
    JoinedTwo(b, c);
    assert [a, b, c][1..] == [b, c];
  }

  lemma JoinedSix(a: seq<byte>, b: seq<byte>, c: seq<byte>, d: seq<byte>, e: seq<byte>, f: seq<byte>)
    ensures Joined([a, b, c, d, e, f]) == a + b + c + d + e + f
  {
    JoinedThree(d, e, f);
    assert [a, b, c, d, e, f][1..] == [b, c, d, e, f] && [b, c, d, e, f][1..] == [c, d, e, f] &&
           [c, d, e, f][1..] == [d, e, f];
    assert Joined([c, d, e, f]) == c + (d + e + f);
    assert Joined([b, c, d, e, f]) == b + (c + (d + e + f));
  }

  /** hash_of: BLAKE2b in 32 bytes, field by field; it covers exactly what is signed. */
  method HashOf(backend: Backend, b: Block) returns (hash: seq<byte>)
    requires !b.Ignored?
    ensures hash == Blake2Spec.Digest(Blake2Spec.V2b, 32, [], Joined(HashedFields(b)))
    ensures WellFormed(b) ==>
              && |Encode(b)| >= 72
              && var signed := Encode(b)[..|Encode(b)| - 72];
                 hash == Blake2Spec.Digest(Blake2Spec.V2b, 32, [], (if b.State? then Zeros(31) + [6] else []) + signed)
  {
    hide Blake2Spec.Digest, HashedFields, Encode, WellFormed;
    if WellFormed(b) {
      HashCovers(b);
    }
    var out := Blake2Hash.Streamed(Blake2Spec.V2b, backend, 32, [], HashedFields(b));
    hash := out.value;
  }
}
