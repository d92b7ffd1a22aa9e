/** The ring buffer of the latest signals (prediction_failure_signaling.c:14-17, 97-121). */
module SignalRing {
  import opened Config
  import opened Entities

  const ZERO_SIGNAL := Signal(0, 0, 0, NoSignal)

  /** Where the signal that is `k` signals older than the one at `position` is kept. */
  function SlotOf(position: int, k: int): (r: int)
    requires 0 <= position < SIZE_SIG_BUFFER && 0 <= k < SIZE_SIG_BUFFER
    ensures 0 <= r < SIZE_SIG_BUFFER
  {
    if position - k >= 0 then position - k else SIZE_SIG_BUFFER + position - k
  }

  /** What a reader of the buffer should see: the k-th latest signal of the whole history. */
  function Latest(history: seq<Signal>, k: nat): Signal {
    if k < |history| then history[|history| - 1 - k] else ZERO_SIGNAL
  }

  class SignalBuffer {
    const ring: array<Signal>
    var position: nat
    var caused: nat
    ghost var history: seq<Signal>

    ghost predicate Valid()
      reads this, ring
    {
      && ring.Length == SIZE_SIG_BUFFER
      && position < SIZE_SIG_BUFFER
      && caused == |history|
      && forall k :: 0 <= k < SIZE_SIG_BUFFER ==> ring[SlotOf(position, k)] == Latest(history, k)
    }

    constructor ()
      ensures Valid() && history == [] && fresh(ring)
    {
      ring := new Signal[SIZE_SIG_BUFFER](_ => ZERO_SIGNAL);
      position := 0;
      caused := 0;
      history := [];
    }

    /** add_signal: the buffer forgets its oldest signal, the history nothing */
    method AddSignal(sig: Signal)
      requires Valid()
      modifies this, ring
      ensures Valid() && history == old(history) + [sig]
      ensures caused == old(caused) + 1
    {
      position := position + 1;
      if position == 100 {
        position := 0;
      }
      ring[position] := sig;
      caused := caused + 1;
      history := history + [sig];
      forall k | 0 <= k < SIZE_SIG_BUFFER ensures ring[SlotOf(position, k)] == Latest(history, k) {
        if k > 0 {
          assert SlotOf(position, k) == SlotOf(old(position), k - 1) != position;
        }
      }
    }

    /** get_pbs_signal: the k-th latest signal, for every k the buffer can hold */
    method GetSignal(k: int) returns (sig: Signal)
      requires Valid()
      requires 0 <= k < SIZE_SIG_BUFFER
      ensures sig == Latest(history, k)
    {
      var target := position - k;
      if target >= 0 {
        assert SlotOf(position, k) == target;
        return ring[target];
      }
      target := SIZE_SIG_BUFFER + target;
      assert SlotOf(position, k) == target;
      return ring[target];
    }

    /** number_prediction_failures_caused (prediction_failure_signaling.c:141-143) */
    method NumberCaused() returns (n: nat)
      requires Valid()
      ensures n == |history|
    {
      n := caused;
    }
  }
}
