/** Protoblast's `Deck`, as the component registry uses it: a map from names
    to entries that remembers the order in which names were first set.
    Setting a name again replaces its entry and keeps its place. Deck weights
    are never given by the registry and are not modelled. */
module Decks {

  import opened Js

  datatype Deck<V> = Deck(names: seq<string>, entries: map<string, V>) {

    /** Every name is listed once, and the listed names are exactly the keys. */
    ghost predicate Valid() {
      && (forall i, j :: 0 <= i < j < |names| ==> names[i] != names[j])
      && (forall k :: k in entries <==> k in names)
    }
  }

  /** `new Deck()` */
  function Empty<V>(): (d: Deck<V>)
    ensures d.Valid() && d.names == [] && d.entries == map[]
  {
    Deck([], map[])
  }

  /** `deck.set(name, value)` */
  function Set<V>(d: Deck<V>, name: string, v: V): (r: Deck<V>)
    requires d.Valid()
    ensures r.Valid()
    ensures name in r.entries && r.entries[name] == v
    ensures forall k :: k != name ==> (k in r.entries <==> k in d.entries)
    ensures forall k :: k != name && k in d.entries ==> r.entries[k] == d.entries[k]
    ensures name in d.entries ==> r.names == d.names
    ensures name !in d.entries ==> r.names == d.names + [name]
  {
    if name in d.entries then Deck(d.names, d.entries[name := v])
    else Deck(d.names + [name], d.entries[name := v])
  }

  /** `deck.get(name)` */
  function Get<V>(d: Deck<V>, name: string): Option<V> {
    if name in d.entries then Some(d.entries[name]) else None
  }

  /** The entries in iteration order (`for (let x of deck)`). */
  function Values<V>(d: Deck<V>): (r: seq<V>)
    requires d.Valid()
    ensures |r| == |d.names|
    ensures forall i :: 0 <= i < |r| ==> d.names[i] in d.entries && r[i] == d.entries[d.names[i]]
  {
    seq(|d.names|, i requires 0 <= i < |d.names| => d.entries[d.names[i]])
  }

  /** The position of a name in the iteration order. */
  function Position<V>(d: Deck<V>, name: string): (i: nat)
    requires d.Valid() && name in d.entries
    ensures i < |d.names| && d.names[i] == name
    ensures forall j :: 0 <= j < |d.names| && d.names[j] == name ==> j == i
  {
    var i :| 0 <= i < |d.names| && d.names[i] == name; i
  }

  /** Last write wins: re-setting a name replaces its entry in place, and a new
      name is iterated after all existing ones. */
  lemma ValuesAfterSet<V>(d: Deck<V>, name: string, v: V)
    requires d.Valid()
    ensures name in d.entries ==> Values(Set(d, name, v)) == Values(d)[Position(d, name) := v]
    ensures name !in d.entries ==> Values(Set(d, name, v)) == Values(d) + [v]
  {
    var r := Set(d, name, v);
    if name in d.entries {
      var p := Position(d, name);
      forall i | 0 <= i < |d.names|
        ensures Values(r)[i] == Values(d)[p := v][i]
      {
        if i != p {
          assert d.names[i] != name;
        }
      }
    }
  }

  /** Setting the same entry twice leaves the deck as setting it once. */
  lemma SetIdempotent<V>(d: Deck<V>, name: string, v: V)
    requires d.Valid()
    ensures Set(Set(d, name, v), name, v) == Set(d, name, v)
  {
  }
}
