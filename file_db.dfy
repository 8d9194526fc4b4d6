/** The file-name suffix generator of the file database: a 32-bit linear
    congruential generator (the constants of Numerical Recipes) whose
    state is package-level, reseeded from the clock when it is zero, and
    rendered as a 9-digit decimal suffix. */
module FileDb {
  import opened StrConv
  import opened MachineInts

  const Multiplier: nat := 1664525
  const Increment: nat := 1013904223
  const StateModulus: nat := 0x1_0000_0000
  const Billion: nat := 1_000_000_000

  /** One step of the generator in `uint32` arithmetic, which wraps
      around modulo 2^32. */
  function Step(r: nat): (next: nat)
    ensures next < StateModulus
    ensures (r * Multiplier + Increment - next) % StateModulus == 0
  {
    WrapUnsigned(r * Multiplier + Increment, W32)
  }

  /** `strconv.Itoa(int(1e9 + r%1e9))[1:]`. */
  function SuffixOf(r: nat): string {
    var t := FormatInt(Billion + r % Billion);
    t[1..]
  }

  /** The number formatted lies in [10^9, 2*10^9), so it has ten digits
      and the first is '1': dropping it leaves exactly the nine digits of
      r mod 10^9, zero-padded. */
  lemma SuffixDigits(r: nat)
    ensures var t := FormatInt(Billion + r % Billion);
            |t| == 10 && t[0] == '1'
    ensures |SuffixOf(r)| == 9 && AllDigits(SuffixOf(r))
    ensures DecimalValue(SuffixOf(r)) == r % Billion
  {
    var n := Billion + r % Billion;
    var t := FormatInt(n);
    assert Pow10(9) == Billion by { Pow10Of18(); }
    assert Pow10(10) == 10 * Billion;
    FormatUintLength(n, 10);
    FormatUintValue(n);
    DecimalFront(t);
    DecimalBound(t[1..]);
    var d := DigitVal(t[0]);
    assert d * Billion + DecimalValue(t[1..]) == n;
    assert 0 < d * Billion < 2 * Billion;
    assert d == 1;
  }

  /** Two states with different residues modulo 10^9 give different
      suffixes; states that agree modulo 10^9 give the same one. */
  lemma SuffixDistinguishes(r: nat, s: nat)
    ensures SuffixOf(r) == SuffixOf(s) <==> r % Billion == s % Billion
  {
    SuffixDigits(r);
    SuffixDigits(s);
  }

  /** The package-level generator state (`rand`); the mutex around it is
      not modelled. */
  class SuffixGenerator {
    var rand: nat

    ghost predicate Valid()
      reads this
    {
      rand < StateModulus
    }

    constructor ()
      ensures Valid() && rand == 0
    {
      rand := 0;
    }

    /** `nextSuffix`: a zero state is first replaced by the `reseed()`
        value (clock and process id, here a parameter), then stepped; the
        new state is stored and rendered as its suffix. */
    method NextSuffix(reseed: nat) returns (suffix: string)
      requires Valid() && reseed < StateModulus
      modifies this
      ensures Valid()
      ensures rand == Step(if old(rand) == 0 then reseed else old(rand))
      ensures suffix == SuffixOf(rand)
      ensures |suffix| == 9 && AllDigits(suffix) && DecimalValue(suffix) == rand % Billion
    {
      var r := rand;
      if r == 0 {
        r := reseed;
      }
      r := Step(r);
      rand := r;
      SuffixDigits(r);
      suffix := SuffixOf(r);
    }
  }
}
