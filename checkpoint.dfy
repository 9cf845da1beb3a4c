/**
 * The key-renaming loop of `load_model_chk`: every key of the
 * checkpoint's `state_dict` loses its first six characters (the
 * "model." prefix a Lightning module puts in front of its parameters)
 * and the value is stored under the new name in an `OrderedDict`.
 */
module Checkpoint {

  /** Length of the prefix "model." that is cut off every key. */
  const PrefixLength: nat := 6

  /** Python's `k[6:]`: a key shorter than six characters becomes "". */
  function StripPrefix(k: string): (r: string)
    ensures |r| == if |k| < PrefixLength then 0 else |k| - PrefixLength
    ensures r == k[|k| - |r|..]
  {
    if |k| < PrefixLength then "" else k[PrefixLength..]
  }

  /** Cutting six characters off "model." + name gives the parameter name back. */
  lemma StripModelPrefix(name: string)
    ensures StripPrefix("model." + name) == name
  {
  }

  /**
   * An `OrderedDict` from names to values: `keys` lists the keys in
   * insertion order, `entries` holds the value of each key.
   */
  datatype OrderedDict<V> = OrderedDict(keys: seq<string>, entries: map<string, V>)

  predicate NoDuplicates(s: seq<string>) {
    forall i, j :: 0 <= i < j < |s| ==> s[i] != s[j]
  }

  /** The keys are listed once each, and they are exactly the keys with a value. */
  predicate Valid<V>(d: OrderedDict<V>) {
    NoDuplicates(d.keys) && d.entries.Keys == set k | k in d.keys
  }

  function Empty<V>(): (d: OrderedDict<V>)
    ensures Valid(d) && d.keys == [] && d.entries == map[]
  {
    OrderedDict([], map[])
  }

  /**
   * `d[k] = v` on an `OrderedDict`: a new key goes to the end, an
   * existing key keeps its place and only its value changes.
   */
  function Set<V>(d: OrderedDict<V>, k: string, v: V): (r: OrderedDict<V>)
    requires Valid(d)
    ensures Valid(r)
    ensures r.entries == d.entries[k := v]
    ensures k in d.entries ==> r.keys == d.keys
    ensures k !in d.entries ==> r.keys == d.keys + [k]
  {
    if k in d.entries then OrderedDict(d.keys, d.entries[k := v])
    else OrderedDict(d.keys + [k], d.entries[k := v])
  }

  /** The new name of every item, in input order. */
  function Names<V>(items: seq<(string, V)>): (r: seq<string>)
    ensures |r| == |items|
    ensures forall i :: 0 <= i < |items| ==> r[i] == StripPrefix(items[i].0)
  {
    seq(|items|, i requires 0 <= i < |items| => StripPrefix(items[i].0))
  }

  /** What the loop of `load_model_chk` has built after visiting `items` in order. */
  function Renamed<V>(items: seq<(string, V)>): (d: OrderedDict<V>)
    ensures Valid(d)
  {
    if items == [] then Empty()
    else
      var last := items[|items| - 1];
      Set(Renamed(items[..|items| - 1]), StripPrefix(last.0), last.1)
  }

  /** The loop of `load_model_chk` (lines building `new_state_dict`). */
  method LoadModelChk<V>(stateDict: seq<(string, V)>) returns (newStateDict: OrderedDict<V>)
    ensures newStateDict == Renamed(stateDict)
  {
    newStateDict := Empty();
    var i := 0;
    while i < |stateDict|
      invariant 0 <= i <= |stateDict|
      invariant newStateDict == Renamed(stateDict[..i])
    {
      var (k, v) := stateDict[i];
      var name := StripPrefix(k);
      assert stateDict[..i + 1][..i] == stateDict[..i];
      newStateDict := Set(newStateDict, name, v);
      i := i + 1;
    }
    assert stateDict[..i] == stateDict;
  }

  /** The renamed dictionary has a key exactly for every stripped input key. */
  lemma {:induction false} RenamedDomain<V>(items: seq<(string, V)>)
    ensures forall k :: k in Renamed(items).entries <==> k in Names(items)
  {
    if items != [] {
      var init := items[..|items| - 1];
      RenamedDomain(init);
      assert Names(items) == Names(init) + [StripPrefix(items[|items| - 1].0)];
    }
  }

  /** When several keys strip to the same name, the value of the last one is kept. */
  lemma {:induction false} RenamedLastWins<V>(items: seq<(string, V)>, i: nat)
    requires i < |items|
    requires forall j :: i < j < |items| ==> StripPrefix(items[j].0) != StripPrefix(items[i].0)
    ensures StripPrefix(items[i].0) in Renamed(items).entries
    ensures Renamed(items).entries[StripPrefix(items[i].0)] == items[i].1
  {
    if i < |items| - 1 {
      var init := items[..|items| - 1];
      assert init[i] == items[i];
      RenamedLastWins(init, i);
    }
  }

  /** Index of the first occurrence of `k` in `names`. */
  function FirstIndex(names: seq<string>, k: string): (r: nat)
    requires k in names
    ensures r < |names| && names[r] == k
    ensures forall j :: 0 <= j < r ==> names[j] != k
  {
    if names[0] == k then 0 else 1 + FirstIndex(names[1..], k)
  }

  lemma FirstIndexExtend(names: seq<string>, x: string, k: string)
    requires k in names
    ensures FirstIndex(names + [x], k) == FirstIndex(names, k)
  {
    var r := FirstIndex(names, k);
    assert (names + [x])[r] == k;
    assert FirstIndex(names + [x], k) <= r;
  }

  /** `keys` are names in the order of their first occurrence in `names`. */
  predicate InFirstOccurrenceOrder(keys: seq<string>, names: seq<string>) {
    && (forall p :: 0 <= p < |keys| ==> keys[p] in names)
    && (forall p, q :: 0 <= p < q < |keys| ==> FirstIndex(names, keys[p]) < FirstIndex(names, keys[q]))
  }

  lemma OrderExtend(keys: seq<string>, names: seq<string>, x: string)
    requires InFirstOccurrenceOrder(keys, names)
    ensures InFirstOccurrenceOrder(keys, names + [x])
    ensures x !in names ==> InFirstOccurrenceOrder(keys + [x], names + [x])
  {
    forall p | 0 <= p < |keys|
      ensures FirstIndex(names + [x], keys[p]) == FirstIndex(names, keys[p])
    {
      FirstIndexExtend(names, x, keys[p]);
    }
    if x !in names {
      assert FirstIndex(names + [x], x) == |names|;
      var keys' := keys + [x];
      forall p, q | 0 <= p < q < |keys'|
        ensures FirstIndex(names + [x], keys'[p]) < FirstIndex(names + [x], keys'[q])
      {
        if q == |keys| {
          assert keys'[p] == keys[p];
        }
      }
    }
  }

  /**
   * The keys of the renamed dictionary come in the order in which their
   * names first appear among the stripped input keys.
   */
  lemma {:induction false} RenamedKeyOrder<V>(items: seq<(string, V)>)
    ensures InFirstOccurrenceOrder(Renamed(items).keys, Names(items))
  {
    if items != [] {
      var init := items[..|items| - 1];
      var x := StripPrefix(items[|items| - 1].0);
      RenamedKeyOrder(init);
      RenamedDomain(init);
      assert Names(items) == Names(init) + [x];
      OrderExtend(Renamed(init).keys, Names(init), x);
    }
  }

  /**
   * With no two keys stripping to the same name, renaming keeps every
   * item, in input order, with its value unchanged.
   */
  lemma {:induction false} RenamedInjective<V>(items: seq<(string, V)>)
    requires NoDuplicates(Names(items))
    ensures Renamed(items).keys == Names(items)
    ensures forall i :: 0 <= i < |items| ==> Renamed(items).entries[Names(items)[i]] == items[i].1
  {
    if items != [] {
      var init := items[..|items| - 1];
      assert Names(items) == Names(init) + [StripPrefix(items[|items| - 1].0)];
      RenamedInjective(init);
      RenamedDomain(init);
      forall i | 0 <= i < |items|
        ensures Renamed(items).entries[Names(items)[i]] == items[i].1
      {
        RenamedLastWins(items, i);
      }
    }
  }
}
