// The packed keys of the chat server: two user ids in one 64-bit conversation number, a conversation
// and a sequence number in one 128-bit table key.
module PackedKeys {

  function Pow2(k: nat): nat {
    if k == 0 then 1 else 2 * Pow2(k - 1)
  }

  // Bitwise or.
  function Or(a: nat, b: nat): nat {
    if a == 0 then b
    else if b == 0 then a
    else 2 * Or(a / 2, b / 2) + (if a % 2 == 1 || b % 2 == 1 then 1 else 0)
  }

  const U64_MAX: nat := 0xFFFF_FFFF_FFFF_FFFF

  // The numbers of 32 bits, and the upper and lower part of longer ones.
  predicate IsWord(x: int) {
    0 <= x < 0x1_0000_0000
  }

  function Shifted(x: nat): nat {
    x * 0x1_0000_0000
  }

  function Upper(x: nat): nat {
    x / 0x1_0000_0000
  }

  function Lower(x: nat): nat {
    x % 0x1_0000_0000
  }

  // (min << 32) | max, on 64-bit words.
  function ConversationKey(a: nat, b: nat): nat {
    var min, max := if a < b then a else b, if a < b then b else a;
    Or(Shifted(min) % 0x1_0000_0000_0000_0000, max)
  }

  // (conv as u128) << 32 | seq
  function MessageKey(conv: nat, q: nat): nat {
    Or(Shifted(conv), q)
  }

  // ((conv as u128) << 32) | u64::MAX
  function ScanEnd(conv: nat): nat {
    Or(Shifted(conv), U64_MAX)
  }

  lemma {:induction false} OrWithZero(a: nat)
    ensures Or(a, 0) == a && Or(0, a) == a
  {
  }

  // Or of a number whose low k bits are clear with one of k bits is their sum.
  lemma {:induction false} OrOfDisjointBits(x: nat, k: nat, b: nat)
    requires b < Pow2(k)
    ensures Or(x * Pow2(k), b) == x * Pow2(k) + b
  {
    if k > 0 && b > 0 && x * Pow2(k) > 0 {
      assert x * Pow2(k) == 2 * (x * Pow2(k - 1));
      OrOfDisjointBits(x, k - 1, b / 2);
    } else {
      OrWithZero(x * Pow2(k));
    }
  }

  lemma {:induction false} Pow2Positive(k: nat)
    ensures Pow2(k) >= 1
  {
    if k == 0 {
    } else {
      Pow2Positive(k - 1);
    }
  }

  // Or with k ones fills the low k bits.
  lemma {:induction false} OrWithOnes(x: nat, y: nat, k: nat)
    requires y < Pow2(k)
    ensures Or(x * Pow2(k) + y, Pow2(k) - 1) == x * Pow2(k) + Pow2(k) - 1
  {
    hide Or;
    if k == 0 {
      OrWithZero(x);
    } else {
      hide Pow2;
      PowStep(x, k);
      OrWithOnes(x, y / 2, k - 1);
      OrOneMore(x * Pow2(k - 1), y, Pow2(k - 1));
    }
  }

  lemma PowStep(x: nat, k: nat)
    requires k > 0
    ensures Pow2(k) == 2 * Pow2(k - 1) && Pow2(k - 1) >= 1
    ensures x * Pow2(k) == 2 * (x * Pow2(k - 1))
  {
    Pow2Positive(k - 1);
    var p := Pow2(k - 1);
    assert x * (2 * p) == 2 * (x * p);
  }

  // One more low bit.
  lemma OrOneMore(high: nat, y: nat, p: nat)
    requires p > 0 && y < 2 * p && Or(high + y / 2, p - 1) == high + p - 1
    ensures Or(2 * high + y, 2 * p - 1) == 2 * high + 2 * p - 1
  {
    hide Or;
    var a, b := 2 * high + y, 2 * p - 1;
    assert a / 2 == high + y / 2 && b / 2 == p - 1 && b % 2 == 1;
    OrStep(a, b);
  }

  lemma OrStep(a: nat, b: nat)
    requires b % 2 == 1
    ensures Or(a, b) == 2 * Or(a / 2, b / 2) + 1
  {
    if a == 0 {
      OrWithZero(b / 2);
    }
  }

  lemma {:induction false} Pow2Adds(a: nat, b: nat)
    ensures Pow2(a + b) == Pow2(a) * Pow2(b)
  {
    if a == 0 {
    } else {
      Pow2Adds(a - 1, b);
      assert Pow2(a + b) == 2 * (Pow2(a - 1) * Pow2(b));
    }
  }

  lemma ShiftIsPow2(x: nat)
    ensures Pow2(32) == 0x1_0000_0000 && Pow2(64) == U64_MAX + 1
    ensures Shifted(x) == x * Pow2(32)
  {
    assert Pow2(8) == 256;
    Pow2Adds(8, 8);
    Pow2Adds(16, 16);
    Pow2Adds(32, 32);
  }

  lemma ConversationKeyIsSum(a: nat, b: nat)
    requires IsWord(a) && IsWord(b)
    ensures ConversationKey(a, b) == if a < b then Shifted(a) + b else Shifted(b) + a
  {
    var min, max := if a < b then a else b, if a < b then b else a;
    assert Shifted(min) % 0x1_0000_0000_0000_0000 == Shifted(min);
    ShiftIsPow2(min);
    OrOfDisjointBits(min, 32, max);
  }

  lemma MessageKeyIsSum(conv: nat, q: nat)
    requires IsWord(q)
    ensures MessageKey(conv, q) == Shifted(conv) + q
  {
    ShiftIsPow2(conv);
    OrOfDisjointBits(conv, 32, q);
  }

  // The end of a scan is the end of the block of 2^32 conversations that share the upper word.
  lemma ScanEndIsBlockEnd(conv: nat)
    ensures ScanEnd(conv) == Shifted(Shifted(Upper(conv) + 1)) - 1
  {
    ShiftIsPow2(conv);
    var x, y := Upper(conv), Shifted(Lower(conv));
    assert Shifted(conv) == Shifted(Shifted(x)) + y && y < U64_MAX + 1;
    assert Shifted(Shifted(x)) == x * Pow2(64);
    OrWithOnes(x, y, 64);
  }

  // Below 2^32 a conversation number stands for exactly one unordered pair of users.
  lemma ConversationKeyIsInjective(a: nat, b: nat, c: nat, d: nat)
    requires IsWord(a) && IsWord(b) && IsWord(c) && IsWord(d)
    ensures ConversationKey(a, b) == ConversationKey(c, d) <==> (a == c && b == d) || (a == d && b == c)
  {
    hide ConversationKey;
    ConversationKeyIsSum(a, b);
    ConversationKeyIsSum(c, d);
  }

  // Table keys are ordered by conversation, then by sequence number.
  lemma MessageKeyKeepsOrder(c: nat, p: nat, d: nat, q: nat)
    requires IsWord(p) && IsWord(q)
    ensures MessageKey(c, p) < MessageKey(d, q) <==> c < d || (c == d && p < q)
    ensures MessageKey(c, p) == MessageKey(d, q) <==> c == d && p == q
  {
    MessageKeyIsSum(c, p);
    MessageKeyIsSum(d, q);
  }

  // A key tells its conversation and its sequence number.
  lemma KeyParts(conv: nat, q: nat)
    requires IsWord(q)
    ensures Upper(MessageKey(conv, q)) == conv && Lower(MessageKey(conv, q)) == q
  {
    MessageKeyIsSum(conv, q);
  }

  lemma KeyOfParts(k: nat)
    ensures MessageKey(Upper(k), Lower(k)) == k && IsWord(Lower(k))
  {
    MessageKeyIsSum(Upper(k), Lower(k));
  }
}
