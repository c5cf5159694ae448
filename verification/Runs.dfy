/** Induction along runs, for any state and any step relation. */
module Runs {

  /** A property every step keeps holds at every moment, and a reflexive and transitive
      relation every step respects holds between any two. */
  lemma {:induction false} Along<W(!new)>(ws: seq<W>, ok: W -> bool, rel: (W, W) -> bool, a: nat, b: nat)
    requires a <= b < |ws| && ok(ws[0])
    requires forall k: nat | k + 1 < |ws| && ok(ws[k]) :: ok(ws[k + 1]) && rel(ws[k], ws[k + 1])
    requires forall w | ok(w) :: rel(w, w)
    requires forall w, w', w'' | ok(w) && rel(w, w') && rel(w', w'') :: rel(w, w'')
    ensures ok(ws[a]) && ok(ws[b]) && rel(ws[a], ws[b])
    decreases b
  {
    if a < b {
      Along(ws, ok, rel, a, b - 1);
      assert b - 1 + 1 == b;
    } else if b > 0 {
      Along(ws, ok, rel, b - 1, b - 1);
      assert b - 1 + 1 == b;
    }
  }

  /** What holds until some step fires, and is settled for good from then on. */
  lemma {:induction false} Until<W(!new)>(ws: seq<W>, holds: W -> bool, settled: W -> bool, fires: nat -> bool, a: nat, n: nat)
    requires a <= n < |ws| && holds(ws[a])
    requires forall k: nat | k + 1 < |ws| && holds(ws[k]) :: if fires(k) then settled(ws[k + 1]) else holds(ws[k + 1])
    requires forall k: nat | k + 1 < |ws| && settled(ws[k]) :: settled(ws[k + 1])
    ensures if exists j: nat :: a <= j < n && fires(j) then settled(ws[n]) else holds(ws[n])
  {
    if a < n {
      Until(ws, holds, settled, fires, a, n - 1);
      assert n - 1 + 1 == n;
      if exists j: nat :: a <= j < n - 1 && fires(j) {
      } else if fires(n - 1) {
      }
    }
  }
}
