/**
  A Python `dict[str, str]` written as a literal: the entries are inserted one
  after the other, a repeated key keeps the position of its first insertion and
  takes the value of its last one. `keys()` iterates in that insertion order.
 */
module PyDict {

  datatype Dict = Dict(order: seq<string>, table: map<string, string>)

  predicate NoDuplicates<T(==)>(s: seq<T>) {
    forall i, j :: 0 <= i < j < |s| ==> s[i] != s[j]
  }

  /** The keys and the key order agree, and no key is listed twice. */
  ghost predicate WellFormed(d: Dict) {
    && NoDuplicates(d.order)
    && (forall k :: k in d.order <==> k in d.table)
  }

  /** The entry names of a literal, in the order they are written. */
  function Names(entries: seq<(string, string)>): (r: seq<string>)
    ensures |r| == |entries|
    ensures forall i :: 0 <= i < |entries| ==> r[i] == entries[i].0
  {
    seq(|entries|, i requires 0 <= i < |entries| => entries[i].0)
  }

  /** `d[key] = value` */
  function Insert(d: Dict, key: string, value: string): (r: Dict)
    ensures r.table == d.table[key := value]
    ensures WellFormed(d) ==> WellFormed(r)
    ensures key in d.table ==> r.order == d.order
    ensures key !in d.table ==> r.order == d.order + [key]
  {
    if key in d.table then d.(table := d.table[key := value])
    else Dict(d.order + [key], d.table[key := value])
  }

  /** The dict a literal `{k0: v0, k1: v1, ...}` evaluates to. */
  function FromEntries(entries: seq<(string, string)>): (r: Dict)
    decreases |entries|
  {
    if entries == [] then Dict([], map[])
    else
      var last := entries[|entries| - 1];
      Insert(FromEntries(entries[..|entries| - 1]), last.0, last.1)
  }

  /** Whatever the literal, its dict is well formed: `list(d.keys())` has no
      duplicates and lists exactly the keys. */
  lemma {:induction false} FromEntriesWellFormed(entries: seq<(string, string)>)
    ensures WellFormed(FromEntries(entries))
  {
    if entries != [] {
      FromEntriesWellFormed(entries[..|entries| - 1]);
    }
  }

  /** A literal without repeated names keeps them, in order, as its key order. */
  lemma {:induction false} FromEntriesOrder(entries: seq<(string, string)>)
    requires NoDuplicates(Names(entries))
    ensures FromEntries(entries).order == Names(entries)
  {
    if entries != [] {
      var n := |entries| - 1;
      var prefix := entries[..n];
      assert Names(prefix) == Names(entries)[..n];
      FromEntriesOrder(prefix);
      FromEntriesWellFormed(prefix);
      assert entries[n].0 !in Names(prefix) by {
        forall j | 0 <= j < n ensures Names(prefix)[j] != entries[n].0 {
          assert Names(prefix)[j] == Names(entries)[j];
        }
      }
      assert Names(entries) == Names(prefix) + [entries[n].0];
    }
  }

  /** In a literal without repeated names, each name maps to the owner written
      beside it. */
  lemma {:induction false} FromEntriesLookup(entries: seq<(string, string)>, i: nat)
    requires NoDuplicates(Names(entries))
    requires i < |entries|
    ensures entries[i].0 in FromEntries(entries).table
    ensures FromEntries(entries).table[entries[i].0] == entries[i].1
  {
    var n := |entries| - 1;
    var prefix := entries[..n];
    if i < n {
      assert Names(prefix) == Names(entries)[..n];
      FromEntriesLookup(prefix, i);
      assert Names(entries)[i] != Names(entries)[n];
    }
  }
}
