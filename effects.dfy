/** The timed effects: their durations and the confetti batch. */
module Effects {
  import opened Types

  const GlitchMs: nat := 500
  const WinkMs: nat := 1500
  const ConfettiMs: nat := 3000
  const FlashMs: nat := 100

  /** Number of pieces in one confetti burst. */
  const ConfettiCount: nat := 50

  /** The batch one burst produces, reduced to its keys 0 .. 49. */
  function ConfettiBatch(): seq<ConfettiPiece> {
    seq(ConfettiCount, i requires 0 <= i < ConfettiCount => ConfettiPiece(i))
  }

  /** The loop of generateConfetti: pushes one piece per iteration. */
  method GenerateConfetti() returns (pieces: seq<ConfettiPiece>)
    ensures |pieces| == ConfettiCount
    ensures forall i :: 0 <= i < |pieces| ==> pieces[i].id == i
    ensures pieces == ConfettiBatch()
  {
    pieces := [];
    var i := 0;
    while i < ConfettiCount
      invariant 0 <= i <= ConfettiCount
      invariant |pieces| == i
      invariant forall k :: 0 <= k < i ==> pieces[k] == ConfettiPiece(k)
    {
      pieces := pieces + [ConfettiPiece(i)];
      i := i + 1;
    }
  }
}
