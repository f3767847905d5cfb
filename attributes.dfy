/** The attribute merge every update view performs: each payload entry is
    copied onto the stored object unless its key is on the view's ignore list. */
module Attributes {
  import opened Json

  /** The object after the merge. */
  function Merged(obj: Record, data: Record, ignore: set<string>): (r: Record)
    ensures r.Keys == obj.Keys + (data.Keys - ignore)
    ensures forall k :: k in data && k !in ignore ==> r[k] == data[k]
    ensures forall k :: k in obj && (k !in data || k in ignore) ==> r[k] == obj[k]
  {
    obj + (data - ignore)
  }

  /** The keys in `keys` are present in `after` exactly when they were in
      `before`, with the same values. */
  predicate Preserves(before: Record, after: Record, keys: set<string>)
  {
    forall k :: k in keys ==> (k in before <==> k in after) && (k in before ==> after[k] == before[k])
  }

  /** The `setattr` loop over the payload's entries. */
  method SetAttributes(obj: Record, data: Record, ignore: set<string>) returns (r: Record)
    ensures r == Merged(obj, data, ignore)
  {
    r := obj;
    var pending := data.Keys;
    while pending != {}
      invariant pending <= data.Keys
      invariant r == Merged(obj, data - pending, ignore)
      decreases pending
    {
      var key :| key in pending;
      if key !in ignore {
        r := r[key := data[key]];
      }
      pending := pending - {key};
    }
  }

  /** Ignored keys keep their stored values whatever the payload says. */
  lemma MergePreservesIgnored(obj: Record, data: Record, ignore: set<string>)
    ensures Preserves(obj, Merged(obj, data, ignore), ignore)
  {
  }

  /** Sending the same update twice leaves the object as one update did. */
  lemma MergeIdempotent(obj: Record, data: Record, ignore: set<string>)
    ensures Merged(Merged(obj, data, ignore), data, ignore) == Merged(obj, data, ignore)
  {
  }
}
