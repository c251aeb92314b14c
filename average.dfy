/**
  The moving average declared for the target by DECLARE_EWMA(avg_size, 4, 4):
  4 bits of fixed-point precision and a weight reciprocal of 4. The fixed-point
  arithmetic lives in linux/average.h, which is not part of this model, so the
  average is kept abstract: its state is the sequence of samples folded into it
  so far, in order. Every concrete moving average is a function of exactly that
  sequence, so an equality between two abstract states (the same samples, in
  the same order) carries over to the real arithmetic. A difference does not:
  the fixed-point update is not injective (a zero state that receives a zero
  sample stays zero), so two different sample histories may well give the same
  concrete average.
 */
module Average {

  datatype Ewma = Ewma(samples: seq<nat>)

  /** The zero state (a zero-filled static, or ewma_avg_size_init). */
  function EwmaInit(): Ewma
  {
    Ewma([])
  }

  /** ewma_avg_size_add: fold one sample into the average. */
  function EwmaAdd(e: Ewma, val: nat): Ewma
  {
    Ewma(e.samples + [val])
  }
}
