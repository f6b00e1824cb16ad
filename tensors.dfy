/**
 * The part of the tensor library the inference service relies on, abstracted:
 * a two-dimensional numeric buffer is a counted handle, and the engine records
 * every buffer it allocates and which of them are still live (not disposed).
 * A loaded layers model is an opaque function from an input row to an output
 * row; it may throw instead of producing an output.
 */
module Tensors {
  import opened Wrappers

  /** A buffer of shape `[rows, cols]` holding `values` in row-major order; `id` is its allocation number. */
  datatype Tensor = Tensor(id: nat, rows: nat, cols: nat, values: seq<real>)

  /** A loaded model: running it on an input row yields an output row or an error. */
  datatype LayersModel = LayersModel(run: seq<real> -> Result<seq<real>, string>)

  /** The library's engine: every buffer allocated so far, in order (`history`), and the ids of the live ones. */
  class Engine {
    var history: seq<Tensor>
    var live: set<nat>

    ghost predicate Valid()
      reads this
    {
      && (forall i :: 0 <= i < |history| ==> history[i].id == i)
      && (forall id :: id in live ==> id < |history|)
    }

    constructor ()
      ensures Valid() && history == [] && live == {}
    {
      history := [];
      live := {};
    }

    /** Allocates a fresh live buffer of shape `[rows, cols]`. */
    method Tensor2d(values: seq<real>, rows: nat, cols: nat) returns (t: Tensor)
      requires Valid()
      modifies this
      ensures Valid()
      ensures t == Tensor(|old(history)|, rows, cols, values)
      ensures history == old(history) + [t]
      ensures t.id !in old(live) && live == old(live) + {t.id}
    {
      t := Tensor(|history|, rows, cols, values);
      history := history + [t];
      live := live + {t.id};
    }

    /** Releases a buffer; disposing one that is not live changes nothing. */
    method Dispose(t: Tensor)
      requires Valid()
      modifies this
      ensures Valid()
      ensures history == old(history)
      ensures live == old(live) - {t.id}
    {
      live := live - {t.id};
    }

    /**
     * Runs `model` on the values of `input`. On success the output row is a fresh
     * live buffer of shape `[1, |output|]`; when the model throws, nothing is added to `history`.
     */
    method Predict(model: LayersModel, input: Tensor) returns (r: Result<Tensor, string>)
      requires Valid()
      modifies this
      ensures Valid()
      ensures model.run(input.values).Failure? ==>
        r == Failure(model.run(input.values).error) && history == old(history) && live == old(live)
      ensures model.run(input.values).Success? ==>
        var out := model.run(input.values).value;
        && r == Success(Tensor(|old(history)|, 1, |out|, out))
        && history == old(history) + [r.value]
        && live == old(live) + {r.value.id}
    {
      match model.run(input.values)
      case Failure(e) =>
        r := Failure(e);
      case Success(out) =>
        var t := Tensor2d(out, 1, |out|);
        r := Success(t);
    }
  }
}
