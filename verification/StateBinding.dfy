/** What one published POI commits an indexer to: the entity state of every block. */
module StateBinding {
  import opened Prelude
  import opened Poi
  import opened CanonicalBytes
  import opened JsonText

  /** The bytes the chain hashes for each block's dispatched entities. */
  function ChainInputs(states: seq<seq<Entity>>): (r: seq<seq<byte>>)
    ensures |r| == |states|
    ensures forall i :: 0 <= i < |states| ==> r[i] == BlockBytes(Render, states[i])
  {
    seq(|states|, i requires 0 <= i < |states| => BlockBytes(Render, states[i]))
  }

  ghost predicate Encodable(states: seq<seq<Entity>>) {
    forall i :: 0 <= i < |states| ==> WellFormedAll(states[i]) && FitsBlock(Render, states[i])
  }

  ghost predicate SameStates(xs: seq<seq<Entity>>, ys: seq<seq<Entity>>) {
    |xs| == |ys| && forall i :: 0 <= i < |xs| ==> SameState(xs[i], ys[i])
  }

  lemma InputsIffStates(xs: seq<seq<Entity>>, ys: seq<seq<Entity>>)
    requires Encodable(xs) && Encodable(ys)
    ensures ChainInputs(xs) == ChainInputs(ys) <==> SameStates(xs, ys)
  {
    if |xs| == |ys| {
      forall i | 0 <= i < |xs|
        ensures ChainInputs(xs)[i] == ChainInputs(ys)[i] <==> SameState(xs[i], ys[i])
      {
        BytesBindState(xs[i], ys[i]);
      }
    } else {
      assert |ChainInputs(xs)| != |ChainInputs(ys)|;
    }
  }

  /** Indexers that dispatched the same state in every block publish the same POI, and
      indexers that publish the same one dispatched the same state in every block, or
      their own blocks exhibit a collision or a preimage of the genesis anchor. */
  lemma OnePoiOneHistory(hash: HashFn, xs: seq<seq<Entity>>, ys: seq<seq<Entity>>)
    requires Encodable(xs) && Encodable(ys)
    ensures SameStates(xs, ys) ==> ChainTip(hash, ChainInputs(xs)) == ChainTip(hash, ChainInputs(ys))
    ensures ChainTip(hash, ChainInputs(xs)) == ChainTip(hash, ChainInputs(ys)) ==>
      SameStates(xs, ys) || Broken(hash, ChainInputs(xs), ChainInputs(ys))
  {
    InputsIffStates(xs, ys);
    if ChainTip(hash, ChainInputs(xs)) == ChainTip(hash, ChainInputs(ys)) {
      AnyLengthBinding(hash, ChainInputs(xs), ChainInputs(ys));
    }
  }
}
