/** A `LinkedMultiValueMap` used as an `application/x-www-form-urlencoded` body: entries in insertion order. */
module Forms {
  type Field = (string, string)

  /** Every value added under `key`, in order. */
  function Values(entries: seq<Field>, key: string): (vs: seq<string>)
    ensures |vs| <= |entries|
  {
    if entries == [] then []
    else Values(entries[..|entries| - 1], key)
         + (if entries[|entries| - 1].0 == key then [entries[|entries| - 1].1] else [])
  }

  /** The keys of the form, in order. */
  function Keys(entries: seq<Field>): (ks: seq<string>)
    ensures |ks| == |entries| && forall i :: 0 <= i < |entries| ==> ks[i] == entries[i].0
  {
    seq(|entries|, i requires 0 <= i < |entries| => entries[i].0)
  }

  /** A key added once has exactly that one value. */
  lemma {:induction false} SingleValue(entries: seq<Field>, i: int)
    requires 0 <= i < |entries|
    requires forall j :: 0 <= j < |entries| && j != i ==> entries[j].0 != entries[i].0
    ensures Values(entries, entries[i].0) == [entries[i].1]
    decreases |entries|
  {
    var init := entries[..|entries| - 1];
    if i < |entries| - 1 {
      SingleValue(init, i);
    } else {
      NoValues(init, entries[i].0);
    }
  }

  lemma {:induction false} NoValues(entries: seq<Field>, key: string)
    requires forall j :: 0 <= j < |entries| ==> entries[j].0 != key
    ensures Values(entries, key) == []
    decreases |entries|
  {
    if entries != [] {
      NoValues(entries[..|entries| - 1], key);
    }
  }

  class FormData {
    var entries: seq<Field>

    constructor ()
      ensures entries == []
    {
      entries := [];
    }

    method Add(key: string, value: string)
      modifies this
      ensures entries == old(entries) + [(key, value)]
    {
      entries := entries + [(key, value)];
    }
  }
}
