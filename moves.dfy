/** `getPokemonMoves`: one lookup per move, settled group by group, the groups'
    results concatenated in group order by a `reduce` chain, and every rejected
    lookup replaced by a fixed placeholder. */
module Moves {
  import opened Wrappers
  import opened Api
  import opened Names
  import opened Batching

  /** The name shown for a move whose lookup was rejected. */
  const Placeholder: string := "Nombre no encontrado"

  /** An entry of `Promise.allSettled`'s result: `{status: "fulfilled", value}` or
      `{status: "rejected", reason}`. */
  datatype Settled<T> = Fulfilled(value: T) | Rejected(reason: Failure)

  /** `Promise.allSettled(batch)`: one entry per lookup, in the batch's order. */
  function AllSettled<T>(batch: seq<Result<T, Failure>>): (r: seq<Settled<T>>)
    ensures |r| == |batch|
    ensures forall i :: 0 <= i < |batch| ==>
      (batch[i].Ok? ==> r[i] == Fulfilled(batch[i].value)) &&
      (batch[i].Err? ==> r[i] == Rejected(batch[i].error))
  {
    seq(|batch|, i requires 0 <= i < |batch| =>
      match batch[i]
      case Ok(v) => Fulfilled(v)
      case Err(e) => Rejected(e))
  }

  /** Settling a concatenation settles each part in turn. */
  lemma AllSettledAppend<T>(xs: seq<Result<T, Failure>>, ys: seq<Result<T, Failure>>)
    ensures AllSettled(xs + ys) == AllSettled(xs) + AllSettled(ys)
  {
  }

  /** The `reduce` chain: starting from `results`, settle each batch in turn and
      append its entries (`results.concat(batchResults)`). */
  function Chain<T>(batches: seq<seq<Result<T, Failure>>>, results: seq<Settled<T>>): seq<Settled<T>>
    decreases |batches|
  {
    if |batches| == 0 then results
    else Chain(batches[1..], results + AllSettled(batches[0]))
  }

  /** The chain appends every batch's settled entries in batch order. */
  lemma {:induction false} ChainIsConcat<T>(batches: seq<seq<Result<T, Failure>>>, results: seq<Settled<T>>)
    ensures Chain(batches, results) == results + AllSettled(Flatten(batches))
    decreases |batches|
  {
    if |batches| > 0 {
      ChainIsConcat(batches[1..], results + AllSettled(batches[0]));
      AllSettledAppend(batches[0], Flatten(batches[1..]));
    }
  }

  /** `result.status === "fulfilled" ? result.value : "Nombre no encontrado"`. */
  function SettledName(result: Settled<string>): string {
    match result
    case Fulfilled(v) => v
    case Rejected(_) => Placeholder
  }

  /** The outcome of each move's lookup, in the order of the move list. */
  function MoveLookups(catalog: Catalog, moves: seq<NamedRef>): seq<Result<string, Failure>> {
    seq(|moves|, i requires 0 <= i < |moves| => ResolveName(catalog, moves[i].url))
  }

  /** The combined result keeps the move list's length and order: it is exactly
      the settled lookups of the whole list, as if there had been one batch. */
  lemma ChainedLookups(catalog: Catalog, moves: seq<NamedRef>)
    ensures Chain(Chunks(MoveLookups(catalog, moves), BatchSize), []) == AllSettled(MoveLookups(catalog, moves))
  {
    var lookups := MoveLookups(catalog, moves);
    ChainIsConcat(Chunks(lookups, BatchSize), []);
    ChunksFlatten(lookups, BatchSize);
  }

  /** `getPokemonMoves(pokemon)`, fulfilled value: the lookups cut into groups of
      `BatchSize`, chained, and mapped to names. It never rejects, and it gives one
      name per move, in order: the "es" name where the lookup succeeded and the
      placeholder where it was rejected. */
  function MoveNames(catalog: Catalog, moves: seq<NamedRef>): (r: seq<string>)
    ensures |r| == |moves|
    ensures forall i :: 0 <= i < |moves| ==>
      r[i] == if ResolveName(catalog, moves[i].url).Ok? then ResolveName(catalog, moves[i].url).value
              else Placeholder
  {
    var results := Chain(Chunks(MoveLookups(catalog, moves), BatchSize), []);
    ChainedLookups(catalog, moves);
    seq(|results|, i requires 0 <= i < |results| => SettledName(results[i]))
  }

  /** A failed lookup touches only its own position: two catalogs that answer the
      URL of move `i` alike give the same name at `i`, whatever they answer for
      the other moves. */
  lemma MoveFailureIsolated(c1: Catalog, c2: Catalog, moves: seq<NamedRef>, i: nat)
    requires i < |moves|
    requires c1.detail(moves[i].url) == c2.detail(moves[i].url)
    ensures |MoveNames(c1, moves)| == |MoveNames(c2, moves)| == |moves|
    ensures MoveNames(c1, moves)[i] == MoveNames(c2, moves)[i]
  {
  }
}
