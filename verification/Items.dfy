/** Logs of items that carry the number of the producer they come from. */
module Items {

  datatype Item = Item(producer: nat, value: int)

  function Values(log: seq<Item>): seq<int> { seq(|log|, i requires 0 <= i < |log| => log[i].value) }

  /** The values of producer p in a log, in log order. */
  function OfProducer(log: seq<Item>, p: nat): seq<int> {
    if log == [] then [] else
    var front, last := log[..|log| - 1], log[|log| - 1];
    OfProducer(front, p) + if last.producer == p then [last.value] else []
  }

  lemma OfProducerAppend(log: seq<Item>, item: Item, p: nat)
    ensures OfProducer(log + [item], p)
         == OfProducer(log, p) + if item.producer == p then [item.value] else []
  {
    assert (log + [item])[..|log|] == log;
  }
}
