/** The threshold schedule of the phase loop in main.cpp. A threshold
    1.0E-e is represented by its exponent e, so a larger exponent is a
    smaller (stricter) threshold.
 */
module ThresholdSchedule {

  /** The value of `short_phase` after the selection, and the exponent of the
      threshold the phase runs with. */
  datatype Selection = Selection(shortPhase: int, exponent: int)

  /** The exponent of each value of `short_phase` in one 13-phase cycle: the
      band table 0-2, 3-6, 7-9, 10-12. */
  const BANDS: seq<int> := [3, 3, 3, 4, 4, 4, 4, 5, 5, 5, 6, 6, 6]

  /** The selection at the top of each phase. With threshold scaling on and
      more than one phase allowed, `short_phase` wraps to 0 past 12 and picks
      its band; a negative `short_phase` matches no band and leaves the
      `previous` threshold in place. Otherwise the threshold is 1.0E-6. */
  function SelectThreshold(thresholdScaling: bool, runOnePhase: bool, shortPhase: int, previous: int): (s: Selection)
    ensures !(thresholdScaling && !runOnePhase) ==> s == Selection(shortPhase, 6)
    ensures thresholdScaling && !runOnePhase && shortPhase >= 0 ==>
      0 <= s.shortPhase <= 12 && s.exponent == BANDS[s.shortPhase]
    ensures thresholdScaling && !runOnePhase && 0 <= shortPhase <= 12 ==> s.shortPhase == shortPhase
    ensures thresholdScaling && !runOnePhase && shortPhase > 12 ==> s == Selection(0, 3)
    ensures thresholdScaling && !runOnePhase && shortPhase < 0 ==> s == Selection(shortPhase, previous)
  {
    if thresholdScaling && !runOnePhase then
      var sp := if shortPhase > 12 then 0 else shortPhase;
      var e :=
        if 0 <= sp <= 2 then 3
        else if 3 <= sp <= 6 then 4
        else if 7 <= sp <= 9 then 5
        else if 10 <= sp <= 12 then 6
        else previous;
      Selection(sp, e)
    else
      Selection(shortPhase, 6)
  }

  /** The selection made at the top of phase n, after n completed phases,
      starting from `short_phase = 0` and an unset threshold `initial`. Each
      completed phase first advances `short_phase` by one when scaling is on
      and more than one phase is allowed. */
  function PhaseSelection(thresholdScaling: bool, runOnePhase: bool, initial: int, n: nat): (s: Selection)
    ensures thresholdScaling && !runOnePhase ==> 0 <= s.shortPhase <= 12 && s.exponent == BANDS[s.shortPhase]
    ensures !(thresholdScaling && !runOnePhase) ==> s.exponent == 6
  {
    if n == 0 then
      SelectThreshold(thresholdScaling, runOnePhase, 0, initial)
    else
      var prev := PhaseSelection(thresholdScaling, runOnePhase, initial, n - 1);
      var advanced := if thresholdScaling && !runOnePhase then prev.shortPhase + 1 else prev.shortPhase;
      SelectThreshold(thresholdScaling, runOnePhase, advanced, prev.exponent)
  }

  /** With scaling on and more than one phase allowed, phase n uses
      `short_phase == n % 13` and the band of that value: thresholds
      1.0E-3, -4, -5, -6 repeat in a 13-phase cycle, and the initial unset
      threshold is never used. */
  lemma {:induction false} ScalingFollowsBands(initial: int, n: nat)
    ensures PhaseSelection(true, false, initial, n).shortPhase == n % 13
    ensures PhaseSelection(true, false, initial, n).exponent == BANDS[n % 13]
  {
    if n > 0 {
      ScalingFollowsBands(initial, n - 1);
      var sp := PhaseSelection(true, false, initial, n - 1).shortPhase;
      assert sp + 1 == 13 ==> n % 13 == 0;
      assert sp + 1 < 13 ==> n % 13 == sp + 1;
    }
  }

  /** With scaling off, or in a single-phase run, every phase uses 1.0E-6 and
      `short_phase` stays 0. */
  lemma {:induction false} NoScalingKeepsFinest(thresholdScaling: bool, runOnePhase: bool, initial: int, n: nat)
    requires !(thresholdScaling && !runOnePhase)
    ensures PhaseSelection(thresholdScaling, runOnePhase, initial, n) == Selection(0, 6)
  {
    if n > 0 {
      NoScalingKeepsFinest(thresholdScaling, runOnePhase, initial, n - 1);
    }
  }

  /** Within a cycle the threshold never grows: the band exponent is
      non-decreasing in `short_phase`. */
  lemma BandsNonDecreasing(a: int, b: int)
    requires 0 <= a <= b < |BANDS|
    ensures BANDS[a] <= BANDS[b]
  {
  }
}
