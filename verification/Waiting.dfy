/** How long a waiter has slept: `waited += 0.2` in binary64 arithmetic, compared with 15.0. */
module Waiting {
  // Numbers of units of 2^-55, the spacing of binary64 at 0.2.
  const WAIT_STEP: nat := 7205759403792794
  const WAIT_TOTAL: nat := 15 * 0x80_0000_0000_0000

  // The spacing of binary64 numbers of this size, up to 16.
  function Spacing(v: nat): nat {
    if v < 0x20_0000_0000_0000 then 1
    else if v < 0x40_0000_0000_0000 then 2
    else if v < 0x80_0000_0000_0000 then 4
    else if v < 0x100_0000_0000_0000 then 8
    else if v < 0x200_0000_0000_0000 then 16
    else if v < 0x400_0000_0000_0000 then 32
    else 64
  }

  // To nearest, ties to even.
  function Rounded(v: nat): nat {
    var u := Spacing(v);
    var q, r := v / u, v % u;
    if 2 * r < u || (2 * r == u && q % 2 == 0) then q * u else (q + 1) * u
  }

  const MAX_SLEEPS: nat := 76

  // The first sums, up to 2.
  function FirstSum(n: nat): nat
    requires n <= 11
  {
    [0, 7205759403792794, 14411518807585588, 21617278211378384, 28823037615171176, 36028797018963968,
     43234556422756760, 50440315826549552, 57646075230342344, 64851834634135136, 72057594037927928,
     79263353441720720][n]
  }

  // The n-th sum: from 2 to 4, from 4 to 8 and from 8 to 16 the steps round to the same amount each time.
  function Waited(n: nat): nat {
    if n <= 11 then FirstSum(n)
    else if n <= 19 then 86469112845513520 + (n - 12) * 7205759403792800
    else if n == 20 then 144115188075855904
    else if n <= 39 then 151320947479648704 + (n - 21) * 7205759403792800
    else 288230376151711872 + (n - 40) * 7205759403792768
  }

  lemma Rounded16(y: nat)
    requires 5404319552844595 <= y && 16 * y + WAIT_STEP < 0x200000000000000
    ensures Rounded(16 * y + WAIT_STEP) == 16 * y + 7205759403792800
  {
    assert (16 * y + WAIT_STEP) / 16 == y + 450359962737049 && (16 * y + WAIT_STEP) % 16 == 10;
  }

  lemma Rounded32(y: nat)
    requires 4728779608739022 <= y && 32 * y + WAIT_STEP < 0x400000000000000
    ensures Rounded(32 * y + WAIT_STEP) == 32 * y + 7205759403792800
  {
    assert (32 * y + WAIT_STEP) / 32 == y + 225179981368524 && (32 * y + WAIT_STEP) % 32 == 26;
  }

  lemma Rounded64(y: nat)
    requires 4503599627370498 <= y && 64 * y + WAIT_STEP < 0x800000000000000
    ensures Rounded(64 * y + WAIT_STEP) == 64 * y + 7205759403792768
  {
    assert (64 * y + WAIT_STEP) / 64 == y + 112589990684262 && (64 * y + WAIT_STEP) % 64 == 26;
  }

  lemma NextFirstSum(n: nat)
    requires n <= 11
    ensures Rounded(Waited(n) + WAIT_STEP) == Waited(n + 1)
  {
  }

  lemma NextSum(n: nat)
    requires n < MAX_SLEEPS
    ensures Rounded(Waited(n) + WAIT_STEP) == Waited(n + 1)
  {
    if n <= 11 {
      NextFirstSum(n);
    } else if n < 19 {
      Rounded16(5404319552844595 + (n - 12) * 450359962737050);
    } else if n <= 20 {
    } else if n < 39 {
      Rounded32(4728779608739022 + (n - 21) * 225179981368525);
    } else if n >= 40 {
      Rounded64(4503599627370498 + (n - 40) * 112589990684262);
    }
  }

  // A waiter that has slept n times and may sleep again.
  ghost predicate Waits(sleeps: nat, waited: nat) { sleeps <= MAX_SLEEPS && waited == Waited(sleeps) }

  /** The 75th sum is still below 15, so a waiter sleeps at most 76 times. */
  lemma NextSleep(sleeps: nat, waited: nat)
    requires Waits(sleeps, waited)
    ensures waited < WAIT_TOTAL <==> sleeps < MAX_SLEEPS
    ensures waited < WAIT_TOTAL ==> Waits(sleeps + 1, Rounded(waited + WAIT_STEP))
  {
    if sleeps < MAX_SLEEPS { NextSum(sleeps); }
  }
}
