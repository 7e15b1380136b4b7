/**
 * Queue slot arithmetic (include/ipc.h): the bit-mask align-up, the slot size built from it,
 * and the addresses of slots in the flat queue storage.
 */
module SlotLayout {

  import opened Bits

  /** What a size_t of `width` bits keeps of a value. */
  function Wrapped(x: nat, width: nat): nat {
    if x < Pow2(width) then x else x % Pow2(width)
  }

  /** IPC_ALIGN_UP on a `width`-bit size_t: the sum wraps, the mask clears the low bits. */
  function AlignUp(value: nat, alignment: nat, width: nat): nat
    requires 1 <= alignment <= Pow2(width)
  {
    And(Wrapped(value + alignment - 1, width), Not(alignment - 1, width))
  }

  /**
   * For a power-of-two alignment and a sum that does not overflow, the mask yields the least
   * multiple of the alignment that is not below the value.
   */
  lemma AlignUpIsLeastMultiple(value: nat, k: nat, width: nat, other: nat)
    requires k < width && value + Pow2(k) - 1 < Pow2(width)
    ensures Pow2(k) <= Pow2(width)
    ensures var up := AlignUp(value, Pow2(k), width);
            && up % Pow2(k) == 0
            && value <= up < value + Pow2(k)
            && (other % Pow2(k) == 0 && value <= other ==> up <= other)
  {
    AlignUpClearsLow(value, k, width);
    ClearedIsLeastMultiple(value, k, other, AlignUp(value, Pow2(k), width));
  }

  lemma ClearedIsLeastMultiple(value: nat, k: nat, other: nat, up: nat)
    requires up == ClearLow(value + Pow2(k) - 1, k)
    ensures up % Pow2(k) == 0 && value <= up < value + Pow2(k)
    ensures other % Pow2(k) == 0 && value <= other ==> up <= other
  {
    ClearLowRoundsDown(value + Pow2(k) - 1, k);
    LeastMultiple(value, Pow2(k), other, up);
  }

  lemma AlignUpClearsLow(value: nat, k: nat, width: nat)
    requires k < width && value + Pow2(k) - 1 < Pow2(width)
    ensures Pow2(k) <= Pow2(width)
    ensures AlignUp(value, Pow2(k), width) == ClearLow(value + Pow2(k) - 1, k)
  {
    Pow2Monotone(k, width);
    MaskClearsLow(value + Pow2(k) - 1, k, width);
  }

  /** Rounding `value + a - 1` down to a multiple of `a` gives the least multiple not below `value`. */
  lemma LeastMultiple(value: nat, a: nat, other: nat, up: nat)
    requires a >= 1 && up == value + a - 1 - (value + a - 1) % a
    ensures up % a == 0 && value <= up < value + a
    ensures other % a == 0 && value <= other ==> up <= other
  {
    var sum := value + a - 1;
    assert up == a * (sum / a);
    DivModUnique(up, a, sum / a, 0);
    if other % a == 0 && value <= other && other < up {
      assert other == a * (other / a);
      if other / a < sum / a { MulLess(a, other / a, sum / a); }
      else if sum / a < other / a { MulLess(a, sum / a, other / a); }
    }
  }

  /** When the sum does overflow, the result is below the value: the slot would be too small. */
  lemma AlignUpOverflows(value: nat, k: nat, width: nat)
    requires k < width && value < Pow2(width) <= value + Pow2(k) - 1
    ensures Pow2(k) <= Pow2(width)
    ensures AlignUp(value, Pow2(k), width) < value
  {
    Pow2Monotone(k, width);
    var sum := value + Pow2(k) - 1;
    DivModUnique(sum, Pow2(width), 1, sum - Pow2(width));
    MaskClearsLow(sum - Pow2(width), k, width);
    ClearLowRoundsDown(sum - Pow2(width), k);
  }

  /** IPC_MSG_SLOT_HEADER_SIZE and IPC_MSG_SLOT_SIZE, for a header of `header` bytes. */
  function HeaderSize(header: nat, k: nat, width: nat): nat
    requires k < width
  {
    Pow2Monotone(k, width);
    AlignUp(header, Pow2(k), width)
  }

  function SlotSize(header: nat, maxPayload: nat, k: nat, width: nat): nat
    requires k < width
  {
    Pow2Monotone(k, width);
    AlignUp(HeaderSize(header, k, width) + maxPayload, Pow2(k), width)
  }

  /**
   * Every slot has room for the header and the largest payload, every slot base and every payload
   * base is aligned, and two different slots of the flat storage never overlap.
   */
  lemma SlotsHoldAndSeparate(header: nat, maxPayload: nat, k: nat, width: nat, i: nat, j: nat)
    requires k < width && i < j
    requires header + maxPayload + 2 * Pow2(k) < Pow2(width)
    ensures var h, s := HeaderSize(header, k, width), SlotSize(header, maxPayload, k, width);
            && header <= h < header + Pow2(k) && h + maxPayload <= s < h + maxPayload + Pow2(k)
            && (i * s) % Pow2(k) == 0 && (i * s + h) % Pow2(k) == 0
            && i * s + h + maxPayload <= j * s
  {
    AlignUpIsLeastMultiple(header, k, width, 0);
    var h, s := HeaderSize(header, k, width), SlotSize(header, maxPayload, k, width);
    AlignUpIsLeastMultiple(h + maxPayload, k, width, 0);
    BasesAligned(i, s, h, Pow2(k));
    SlotsDisjoint(i, j, s);
  }

  lemma BasesAligned(i: nat, s: nat, h: nat, a: nat)
    requires a >= 1 && s % a == 0 && h % a == 0
    ensures (i * s) % a == 0 && (i * s + h) % a == 0
  {
    var p, q := s / a, h / a;
    assert s == a * p && h == a * q;
    assert i * s == a * (i * p) by { MulSwap(i, a, p); }
    DivModUnique(i * s, a, i * p, 0);
    DivModUnique(i * s + h, a, i * p + q, 0);
  }

  lemma MulSwap(x: nat, y: nat, z: nat)
    ensures x * (y * z) == y * (x * z)
  {}

  lemma SlotsDisjoint(i: nat, j: nat, s: nat)
    requires i < j
    ensures (i + 1) * s == i * s + s && i * s + s <= j * s
  {
    MulLess(s, i, j);
  }
}
