/** Occurrence counting as the daily-log service does it: a JavaScript `Map`
    from string to count, filled in place one occurrence at a time, whose
    keys keep insertion order (src/modules/daily-logs/daily-logs.service.ts).

    The specification functions describe the map that results from counting
    a sequence of strings; the class `FrequencyMap` is the mutable map and is
    proved to produce exactly that. */
module Frequencies {
  import opened Wrappers

  /** The distinct strings of `items` in order of first occurrence: the key
      order of a map filled from `items`. */
  function Distinct(items: seq<string>): seq<string> {
    if items == [] then []
    else
      var keys, x := Distinct(items[..|items| - 1]), items[|items| - 1];
      if x in keys then keys else keys + [x]
  }

  /** How often each string occurs in `items`. */
  function Tally(items: seq<string>): map<string, nat> {
    if items == [] then map[]
    else
      var counts, x := Tally(items[..|items| - 1]), items[|items| - 1];
      counts[x := (if x in counts then counts[x] else 0) + 1]
  }

  function CountOf(counts: map<string, nat>, key: string): nat {
    if key in counts then counts[key] else 0
  }

  /** The sum of the counts of `keys`. */
  function SumCounts(keys: seq<string>, counts: map<string, nat>): int {
    if keys == [] then 0
    else SumCounts(keys[..|keys| - 1], counts) + CountOf(counts, keys[|keys| - 1])
  }

  /** A count map turned into a plain object (`Object.fromEntries`): its
      keys in insertion order and their counts. */
  datatype FrequencyTable = FrequencyTable(keys: seq<string>, counts: map<string, nat>)

  /** The table of counts of `items`. */
  function TableOf(items: seq<string>): FrequencyTable {
    FrequencyTable(Distinct(items), Tally(items))
  }

  predicate NoDuplicates(keys: seq<string>) {
    forall i, j :: 0 <= i < j < |keys| ==> keys[i] != keys[j]
  }

  /** What every filled count map satisfies: each key once, exactly the
      counted keys, every count at least 1. */
  ghost predicate WellFormed(table: FrequencyTable) {
    && NoDuplicates(table.keys)
    && (forall k :: k in table.counts <==> k in table.keys)
    && (forall k :: k in table.counts ==> table.counts[k] >= 1)
  }

  /** A key's count is its number of occurrences, and the keys are exactly
      the strings that occur. */
  lemma {:induction false} TallyCounts(items: seq<string>)
    ensures forall k :: k in Tally(items) <==> k in items
    ensures forall k :: k in Tally(items) ==> Tally(items)[k] == multiset(items)[k]
  {
    if items != [] {
      var prefix, x := items[..|items| - 1], items[|items| - 1];
      TallyCounts(prefix);
      assert items == prefix + [x];
      assert multiset(items) == multiset(prefix) + multiset{x};
    }
  }

  /** The keys are the distinct strings of `items`, each once. */
  lemma {:induction false} DistinctKeys(items: seq<string>)
    ensures NoDuplicates(Distinct(items))
    ensures forall k :: k in Distinct(items) <==> k in items
  {
    if items != [] {
      var prefix, x := items[..|items| - 1], items[|items| - 1];
      DistinctKeys(prefix);
      assert items == prefix + [x];
    }
  }

  /** The table of any sequence of strings is well formed. */
  lemma TableOfWellFormed(items: seq<string>)
    ensures WellFormed(TableOf(items))
  {
    TallyCounts(items);
    DistinctKeys(items);
    forall k | k in Tally(items) ensures Tally(items)[k] >= 1 {
      assert k in multiset(items);
    }
  }

  lemma SumCountsAppend(keys: seq<string>, key: string, counts: map<string, nat>)
    ensures SumCounts(keys + [key], counts) == SumCounts(keys, counts) + CountOf(counts, key)
  {
    assert (keys + [key])[..|keys|] == keys;
  }

  /** Changing the count of a key that is not listed changes no sum. */
  lemma {:induction false} SumCountsOtherKey(keys: seq<string>, counts: map<string, nat>, key: string, v: nat)
    requires key !in keys
    ensures SumCounts(keys, counts[key := v]) == SumCounts(keys, counts)
  {
    if keys != [] {
      SumCountsOtherKey(keys[..|keys| - 1], counts, key, v);
    }
  }

  /** Changing the count of a key listed once changes the sum by the same. */
  lemma {:induction false} SumCountsUpdate(keys: seq<string>, counts: map<string, nat>, key: string, v: nat)
    requires NoDuplicates(keys) && key in keys
    ensures SumCounts(keys, counts[key := v]) == SumCounts(keys, counts) - CountOf(counts, key) + v
  {
    var prefix, last := keys[..|keys| - 1], keys[|keys| - 1];
    if last == key {
      assert key !in prefix;
      SumCountsOtherKey(prefix, counts, key, v);
    } else {
      assert key in prefix by {
        var i :| 0 <= i < |keys| && keys[i] == key;
        assert prefix[i] == key;
      }
      SumCountsUpdate(prefix, counts, key, v);
    }
  }

  /** The counts of a table sum to the number of strings counted. */
  lemma {:induction false} TallyTotal(items: seq<string>)
    ensures SumCounts(Distinct(items), Tally(items)) == |items|
  {
    if items != [] {
      var prefix, x := items[..|items| - 1], items[|items| - 1];
      TallyTotal(prefix);
      TallyCounts(prefix);
      DistinctKeys(prefix);
      var keys, counts := Distinct(prefix), Tally(prefix);
      if x in keys {
        SumCountsUpdate(keys, counts, x, CountOf(counts, x) + 1);
      } else {
        SumCountsOtherKey(keys, counts, x, 1);
        SumCountsAppend(keys, x, counts[x := 1]);
      }
    }
  }

  /** Counting one more string: how the keys and counts of a table grow. */
  lemma TallyStep(items: seq<string>, x: string)
    ensures Distinct(items + [x]) == if x in Tally(items) then Distinct(items) else Distinct(items) + [x]
    ensures Tally(items + [x]) == Tally(items)[x := CountOf(Tally(items), x) + 1]
  {
    assert (items + [x])[..|items|] == items;
    TallyCounts(items);
    DistinctKeys(items);
  }

  // ---------------------------------------------------------------------
  // Choosing the most frequent key

  /** The scan of `getMostFrequent` over the keys in order: the running
      maximum count and the key that first reached it (starting from 0 and
      the empty string). */
  function Leader(keys: seq<string>, counts: map<string, nat>): (int, string) {
    if keys == [] then (0, "")
    else
      var (maxCount, best) := Leader(keys[..|keys| - 1], counts);
      var key := keys[|keys| - 1];
      if CountOf(counts, key) > maxCount then (CountOf(counts, key), key) else (maxCount, best)
  }

  /** The most frequent key of a table, `null` for an empty one. */
  function MostFrequent(table: FrequencyTable): Option<string> {
    if table.keys == [] then None else Some(Leader(table.keys, table.counts).1)
  }

  /** Over keys with positive counts, the scan ends on a key whose count is
      the largest. */
  lemma {:induction false} LeaderIsMaximum(keys: seq<string>, counts: map<string, nat>)
    requires keys != []
    requires forall k :: k in keys ==> CountOf(counts, k) >= 1
    ensures Leader(keys, counts).1 in keys
    ensures Leader(keys, counts).0 == CountOf(counts, Leader(keys, counts).1)
    ensures forall k :: k in keys ==> CountOf(counts, k) <= Leader(keys, counts).0
  {
    var prefix := keys[..|keys| - 1];
    assert keys == prefix + [keys[|keys| - 1]];
    if prefix != [] {
      assert forall k :: k in prefix ==> k in keys;
      LeaderIsMaximum(prefix, counts);
    }
  }

  /** ... and no key before it reaches that count: it is the first maximum. */
  lemma {:induction false} LeaderIsFirstMaximum(keys: seq<string>, counts: map<string, nat>)
    requires keys != []
    requires forall k :: k in keys ==> CountOf(counts, k) >= 1
    ensures exists i :: 0 <= i < |keys| && keys[i] == Leader(keys, counts).1 &&
              forall j :: 0 <= j < i ==> CountOf(counts, keys[j]) < Leader(keys, counts).0
  {
    var prefix, key := keys[..|keys| - 1], keys[|keys| - 1];
    assert keys == prefix + [key];
    if prefix == [] {
      assert keys[0] == key;
    } else {
      assert forall k :: k in prefix ==> k in keys;
      var lead := Leader(prefix, counts);
      if CountOf(counts, key) > lead.0 {
        LeaderIsMaximum(prefix, counts);
        forall j | 0 <= j < |keys| - 1 ensures CountOf(counts, keys[j]) < CountOf(counts, key) {
          assert keys[j] == prefix[j] && prefix[j] in prefix;
        }
      } else {
        LeaderIsFirstMaximum(prefix, counts);
        var i :| 0 <= i < |prefix| && prefix[i] == lead.1 &&
                 forall j :: 0 <= j < i ==> CountOf(counts, prefix[j]) < lead.0;
        assert keys[i] == lead.1;
        forall j | 0 <= j < i ensures CountOf(counts, keys[j]) < lead.0 {
          assert keys[j] == prefix[j];
        }
      }
    }
  }

  /** `getMostFrequent` returns `null` exactly for an empty map, and
      otherwise the first key, in insertion order, whose count is not
      exceeded by any other. */
  lemma MostFrequentIsFirstMaximum(table: FrequencyTable)
    requires WellFormed(table)
    ensures MostFrequent(table).None? <==> table.keys == []
    ensures MostFrequent(table).Some? ==>
              var best := MostFrequent(table).value;
              && best in table.counts
              && (forall k :: k in table.counts ==> table.counts[k] <= table.counts[best])
              && exists i :: 0 <= i < |table.keys| && table.keys[i] == best &&
                   forall j :: 0 <= j < i ==> table.counts[table.keys[j]] < table.counts[best]
  {
    if table.keys != [] {
      LeaderIsMaximum(table.keys, table.counts);
      LeaderIsFirstMaximum(table.keys, table.counts);
    }
  }

  // ---------------------------------------------------------------------
  // The mutable map

  /** A `Map<string, number>` of occurrence counts, updated in place. */
  class FrequencyMap {
    var keys: seq<string>
    var counts: map<string, nat>

    /** The map holds exactly the counts of `items`, keys in first-occurrence
        order. */
    ghost predicate Holds(items: seq<string>)
      reads this
    {
      keys == Distinct(items) && counts == Tally(items)
    }

    /** The plain object the map turns into (`Object.fromEntries`). */
    function Snapshot(): FrequencyTable
      reads this
    {
      FrequencyTable(keys, counts)
    }

    /** `new Map()` */
    constructor ()
      ensures Holds([])
    {
      keys := [];
      counts := map[];
    }

    /** `map.set(key, (map.get(key) || 0) + 1)`: a new key goes last, a known
        key keeps its place, so a map that held the counts of `counted` now
        holds those of `counted + [key]`. */
    method Increment(key: string, ghost counted: seq<string>)
      requires Holds(counted)
      modifies this
      ensures counts == old(counts)[key := CountOf(old(counts), key) + 1]
      ensures keys == if key in old(counts) then old(keys) else old(keys) + [key]
      ensures Holds(counted + [key])
    {
      TallyStep(counted, key);
      if key !in counts {
        keys := keys + [key];
      }
      counts := counts[key := CountOf(counts, key) + 1];
    }
  }

  /** `items.forEach(item => map.set(item, (map.get(item) || 0) + 1))`. */
  method CountAll(m: FrequencyMap, ghost seen: seq<string>, items: seq<string>)
    requires m.Holds(seen)
    modifies m
    ensures m.Holds(seen + items)
  {
    var j := 0;
    ghost var counted := seen;
    assert items[..j] == [];
    while j < |items|
      invariant 0 <= j <= |items|
      invariant counted == seen + items[..j]
      invariant m.Holds(counted)
    {
      m.Increment(items[j], counted);
      assert items[..j + 1] == items[..j] + [items[j]];
      counted := counted + [items[j]];
      j := j + 1;
    }
    assert items[..j] == items;
  }
}
