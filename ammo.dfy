/** Ammunition counts. A weapon's magazine is either a finite number of
    rounds or unlimited (the catalog writes `Infinity` for a melee weapon,
    and JavaScript then keeps `Infinity > 0`, `Infinity - 1 == Infinity`
    and `Infinity >= Infinity`). */
module Ammo {

  datatype Ammo = Rounds(n: nat) | Unlimited

  /** `ammo > 0`: the fire gate's ammunition test. */
  predicate HasRounds(a: Ammo) {
    a.Unlimited? || a.n > 0
  }

  /** `ammo >= max`: the "magazine is full" test of reloading. */
  predicate AtLeast(a: Ammo, max: Ammo) {
    match max
    case Unlimited => a.Unlimited?
    case Rounds(m) => a.Unlimited? || a.n >= m
  }

  /** `ammo--` after a shot; only reached with rounds left. */
  function Spend(a: Ammo): (r: Ammo)
    requires HasRounds(a)
    ensures a.Unlimited? <==> r.Unlimited?
    ensures r.Rounds? ==> r.n + 1 == a.n
  {
    match a
    case Unlimited => Unlimited
    case Rounds(n) => Rounds(n - 1)
  }

  /** An unlimited magazine never blocks the fire gate, however many shots
      are spent from it. */
  lemma {:induction false} UnlimitedNeverRunsDry(k: nat)
    ensures HasRounds(SpendTimes(Unlimited, k))
    ensures SpendTimes(Unlimited, k) == Unlimited
  {
    if k > 0 {
      UnlimitedNeverRunsDry(k - 1);
    }
  }

  /** A finite magazine of `n` rounds allows exactly `n` shots: after `k <= n`
      shots `n - k` rounds remain, and the gate blocks exactly when `k == n`. */
  lemma {:induction false} FiniteMagazineShots(n: nat, k: nat)
    requires k <= n
    ensures SpendTimes(Rounds(n), k) == Rounds(n - k)
    ensures HasRounds(SpendTimes(Rounds(n), k)) <==> k < n
  {
    if k > 0 {
      FiniteMagazineShots(n, k - 1);
    }
  }

  /** `k` successive shots, each one allowed by the gate. */
  function SpendTimes(a: Ammo, k: nat): Ammo
  {
    if k == 0 then a
    else
      var b := SpendTimes(a, k - 1);
      if HasRounds(b) then Spend(b) else b
  }
}
