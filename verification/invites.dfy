/**
 * `generate_invite_code`: a code of `length` characters, each picked by
 * `random.choice` from `string.ascii_letters + string.digits`.
 */
module Invites {

  /** Character `i` of `string.ascii_letters + string.digits`: "a".."z", then "A".."Z", then "0".."9". */
  function AlphabetChar(i: int): char
    requires 0 <= i < 62
  {
    if i < 26 then ('a' as int + i) as char
    else if i < 52 then ('A' as int + (i - 26)) as char
    else ('0' as int + (i - 52)) as char
  }

  /** `string.ascii_letters + string.digits`, that is "abc...xyzABC...XYZ012...9". */
  function Alphabet(): string
  {
    seq(62, i requires 0 <= i < 62 => AlphabetChar(i))
  }

  /** The default `length` of `generate_invite_code`, the one every caller uses. */
  const DefaultLength: nat := 8

  predicate IsAlphanumeric(c: char) {
    'a' <= c <= 'z' || 'A' <= c <= 'Z' || '0' <= c <= '9'
  }

  /** The position of an alphanumeric character in the alphabet. */
  function IndexOf(c: char): (i: nat)
    requires IsAlphanumeric(c)
    ensures i < |Alphabet()| && Alphabet()[i] == c
  {
    if 'a' <= c <= 'z' then c as int - 'a' as int
    else if 'A' <= c <= 'Z' then 26 + (c as int - 'A' as int)
    else 52 + (c as int - '0' as int)
  }

  /** The alphabet is exactly the 62 ASCII letters and digits. */
  lemma AlphabetIsAlphanumeric()
    ensures |Alphabet()| == 62
    ensures forall c :: c in Alphabet() <==> IsAlphanumeric(c)
  {
    forall c | IsAlphanumeric(c) ensures c in Alphabet() {
      assert Alphabet()[IndexOf(c)] == c;
    }
  }

  /**
   * The code `generate_invite_code(length)` returns when the `k`-th call of
   * `random.choice` picks index `draw(k)` of the alphabet (indices are taken
   * modulo the alphabet's size, so every `draw` is a valid sequence of picks).
   */
  function GenerateInviteCode(length: nat, draw: nat -> nat): (code: string)
    ensures |code| == length
    ensures forall k | 0 <= k < |code| :: IsAlphanumeric(code[k])
  {
    seq(length, (k: int) requires 0 <= k => Alphabet()[draw(k) % |Alphabet()|])
  }

  /** The picks that produce a given code. */
  function DrawOf(code: string): nat -> nat
    requires forall k | 0 <= k < |code| :: IsAlphanumeric(code[k])
  {
    (k: nat) => if k < |code| then IndexOf(code[k]) else 0
  }

  /** Every alphanumeric string of the right length is a code the generator can produce. */
  lemma EveryCodeCanBeDrawn(code: string)
    requires forall k | 0 <= k < |code| :: IsAlphanumeric(code[k])
    ensures GenerateInviteCode(|code|, DrawOf(code)) == code
  {
    var generated := GenerateInviteCode(|code|, DrawOf(code));
    forall k | 0 <= k < |code| ensures generated[k] == code[k] {
      assert DrawOf(code)(k) == IndexOf(code[k]);
    }
  }
}
