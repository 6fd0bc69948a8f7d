/**
 Counter maps: a map from keys to how often each key occurs. The broker, the
 UDP limiter and the router all keep such maps beside the table they count.
 */
module Counting {
  import opened Options

  function Count<K>(counts: map<K, int>, key: K): int {
    if key in counts then counts[key] else 0
  }

  function Incremented<K>(counts: map<K, int>, key: K): map<K, int> {
    counts[key := Count(counts, key) + 1]
  }

  /** Deletes a key that would fall to zero, and clamps there. */
  function Decremented<K>(counts: map<K, int>, key: K): map<K, int> {
    if Count(counts, key) <= 1 then counts - {key} else counts[key := Count(counts, key) - 1]
  }

  function Raised<K>(counts: map<K, int>, key: Option<K>): map<K, int> {
    if key.Some? then Incremented(counts, key.value) else counts
  }

  function Lowered<K>(counts: map<K, int>, key: Option<K>): map<K, int> {
    if key.Some? then Decremented(counts, key.value) else counts
  }

  /** The items filed under one key. */
  ghost function Having<I, K>(keys: map<I, K>, key: K): set<I> {
    set item <- keys | keys[item] == key
  }

  /** How often each key occurs; a key is present exactly when it occurs at all. */
  ghost function Tally<I, K>(keys: map<I, K>): map<K, int> {
    map key <- keys.Values :: |Having(keys, key)|
  }

  lemma TallyCounts<I, K>(keys: map<I, K>, key: K)
    ensures Count(Tally(keys), key) == |Having(keys, key)|
    ensures key in Tally(keys) <==> |Having(keys, key)| > 0
  {
    if key in keys.Values {
      var item :| item in keys && keys[item] == key;
      assert item in Having(keys, key);
    } else {
      assert Having(keys, key) == {};
    }
  }

  lemma HavingMore<I, K>(keys: map<I, K>, item: I, added: K, key: K)
    requires item !in keys
    ensures |Having(keys[item := added], key)| == |Having(keys, key)| + (if key == added then 1 else 0)
  {
    var more := keys[item := added];
    if key == added {
      assert Having(more, key) == Having(keys, key) + {item};
    } else {
      assert Having(more, key) == Having(keys, key);
    }
  }

  lemma HavingLess<I, K>(keys: map<I, K>, item: I, key: K)
    requires item in keys
    ensures |Having(keys, key)| == |Having(keys - {item}, key)| + (if key == keys[item] then 1 else 0)
  {
    assert (keys - {item})[item := keys[item]] == keys;
    HavingMore(keys - {item}, item, keys[item], key);
  }

  /** Two counter maps without zero entries are equal when they count alike. */
  lemma SameCounts<K>(left: map<K, int>, right: map<K, int>)
    requires forall key :: Count(left, key) == Count(right, key)
    requires forall key <- left :: left[key] > 0
    requires forall key <- right :: right[key] > 0
    ensures left == right
  {
    forall key
      ensures key in left <==> key in right
      ensures key in left ==> left[key] == right[key]
    {
      assert Count(left, key) == Count(right, key);
    }
  }

  lemma TallyIsPositive<I, K>(keys: map<I, K>)
    ensures forall key <- Tally(keys) :: Tally(keys)[key] > 0
  {
    forall key <- Tally(keys)
      ensures Tally(keys)[key] > 0
    {
      TallyCounts(keys, key);
    }
  }

  lemma TallyMore<I, K>(keys: map<I, K>, item: I, added: K)
    requires item !in keys
    ensures Tally(keys[item := added]) == Incremented(Tally(keys), added)
  {
    var counts, more := Incremented(Tally(keys), added), Tally(keys[item := added]);
    TallyIsPositive(keys);
    TallyIsPositive(keys[item := added]);
    forall key
      ensures Count(counts, key) == Count(more, key)
    {
      TallyCounts(keys, key);
      TallyCounts(keys[item := added], key);
      HavingMore(keys, item, added, key);
    }
    TallyCounts(keys, added);
    SameCounts(counts, more);
  }

  /** The clamp in Decremented never hides anything: the count it lowers was positive. */
  lemma TallyLess<I, K>(keys: map<I, K>, item: I)
    requires item in keys
    ensures Count(Tally(keys), keys[item]) >= 1
    ensures Tally(keys - {item}) == Decremented(Tally(keys), keys[item])
  {
    var counts, less := Decremented(Tally(keys), keys[item]), Tally(keys - {item});
    TallyIsPositive(keys);
    TallyIsPositive(keys - {item});
    forall key
      ensures Count(counts, key) == Count(less, key)
    {
      TallyCounts(keys, key);
      TallyCounts(keys - {item}, key);
      HavingLess(keys, item, key);
    }
    TallyCounts(keys, keys[item]);
    HavingLess(keys, item, keys[item]);
    SameCounts(counts, less);
  }

  lemma RaiseUndoesLower<K>(counts: map<K, int>, key: Option<K>)
    requires key.Some? ==> Count(counts, key.value) >= 1
    ensures Raised(Lowered(counts, key), key) == counts
  {
  }

  // ---------------------------------------------------------------------
  // Items that may or may not have a key
  // ---------------------------------------------------------------------

  ghost function KeysBy<I, V, K>(items: map<I, V>, key: V -> Option<K>): map<I, K> {
    map item <- items | key(items[item]).Some? :: key(items[item]).value
  }

  lemma RaiseTally<I, V, K>(items: map<I, V>, key: V -> Option<K>, item: I, value: V)
    requires item !in items
    ensures Tally(KeysBy(items[item := value], key)) == Raised(Tally(KeysBy(items, key)), key(value))
    ensures |KeysBy(items[item := value], key)| == |KeysBy(items, key)| + (if key(value).Some? then 1 else 0)
  {
    var keys, more := KeysBy(items, key), KeysBy(items[item := value], key);
    if key(value).Some? {
      assert more == keys[item := key(value).value];
      TallyMore(keys, item, key(value).value);
      CardinalityMore(keys, item, key(value).value);
    } else {
      assert more == keys;
    }
  }

  lemma LowerTally<I, V, K>(items: map<I, V>, key: V -> Option<K>, item: I)
    requires item in items
    ensures Tally(KeysBy(items - {item}, key)) == Lowered(Tally(KeysBy(items, key)), key(items[item]))
    ensures |KeysBy(items, key)| == |KeysBy(items - {item}, key)| + (if key(items[item]).Some? then 1 else 0)
  {
    var keys, less := KeysBy(items, key), KeysBy(items - {item}, key);
    if key(items[item]).Some? {
      assert less == keys - {item};
      TallyLess(keys, item);
      CardinalityLess(keys, item);
    } else {
      assert less == keys;
    }
  }

  /** An item's own key is counted at least once. */
  lemma TallyCovers<I, V, K>(items: map<I, V>, key: V -> Option<K>, item: I)
    requires item in items && key(items[item]).Some?
    ensures Count(Tally(KeysBy(items, key)), key(items[item]).value) >= 1 && |KeysBy(items, key)| >= 1
  {
    TallyLess(KeysBy(items, key), item);
    LowerTally(items, key, item);
  }

  lemma {:induction false} SubsetCardinality<T>(small: set<T>, large: set<T>)
    requires small <= large
    ensures |small| <= |large|
    decreases small
  {
    if small != {} {
      var x :| x in small;
      SubsetCardinality(small - {x}, large - {x});
    }
  }

  lemma CardinalityMore<I, V>(table: map<I, V>, item: I, value: V)
    requires item !in table
    ensures |table[item := value]| == |table| + 1
  {
    assert table[item := value].Keys == table.Keys + {item};
    assert |table.Keys| == |table| && |table[item := value].Keys| == |table[item := value]|;
  }

  lemma CardinalityLess<I, V>(table: map<I, V>, item: I)
    requires item in table
    ensures |table - {item}| == |table| - 1
  {
    assert (table - {item}).Keys == table.Keys - {item};
    assert |table.Keys| == |table| && |(table - {item}).Keys| == |table - {item}|;
  }

  // ---------------------------------------------------------------------
  // Sums over a map
  // ---------------------------------------------------------------------

  ghost function Sum<I>(values: map<I, int>): int
    decreases |values|
  {
    if values == map[] then 0
    else
      var item :| item in values;
      values[item] + Sum(values - {item})
  }

  /** The order in which a sum is taken does not matter. */
  lemma {:induction false} SumLess<I>(values: map<I, int>, item: I)
    requires item in values
    ensures Sum(values) == values[item] + Sum(values - {item})
    decreases |values|
  {
    var first :| first in values && Sum(values) == values[first] + Sum(values - {first});
    if first != item {
      SumLess(values - {first}, item);
      SumLess(values - {item}, first);
      assert values - {first} - {item} == values - {item} - {first};
    }
  }

  lemma SumMore<I>(values: map<I, int>, item: I, value: int)
    requires item !in values
    ensures Sum(values[item := value]) == Sum(values) + value
  {
    SumLess(values[item := value], item);
    assert values[item := value] - {item} == values;
  }

  lemma {:induction false} SumOfNaturals<I>(values: map<I, int>)
    requires forall item <- values :: values[item] >= 0
    ensures Sum(values) >= 0
    decreases |values|
  {
    if values != map[] {
      var item :| item in values;
      SumLess(values, item);
      SumOfNaturals(values - {item});
    }
  }
}
