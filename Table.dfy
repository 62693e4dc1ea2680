/** A table keyed by primary key, as a map from key to row, and the
    `@Insert(onConflict = REPLACE)` semantics of inserting a list of rows. */
module Table {

  /** Every row is stored under its own primary key. */
  ghost predicate KeyedBy<T>(m: map<string, T>, key: T -> string)
  {
    forall k :: k in m ==> key(m[k]) == k
  }

  /** The primary keys occurring in a list of rows. */
  function KeysOf<T>(xs: seq<T>, key: T -> string): set<string>
  {
    set i | 0 <= i < |xs| :: key(xs[i])
  }

  /** Inserting `xs` one after the other, each replacing any row with the same
      key: a later duplicate replaces an earlier one. */
  function UpsertAll<T>(m: map<string, T>, xs: seq<T>, key: T -> string): (r: map<string, T>)
    ensures r.Keys == m.Keys + KeysOf(xs, key)
    ensures forall k :: k in m && k !in KeysOf(xs, key) ==> r[k] == m[k]
    decreases |xs|
  {
    if xs == [] then m
    else
      var init := xs[..|xs| - 1];
      var last := xs[|xs| - 1];
      assert xs == init + [last];
      assert KeysOf(xs, key) == KeysOf(init, key) + {key(last)};
      UpsertAll(m, init, key)[key(last) := last]
  }

  /** After the batch, the row stored under a key of the batch is the LAST row
      of the batch with that key; so with distinct keys every inserted row is
      stored, whatever was there before. */
  lemma {:induction false} UpsertAllLastWins<T>(m: map<string, T>, xs: seq<T>, key: T -> string, i: nat)
    requires i < |xs|
    requires forall j :: i < j < |xs| ==> key(xs[j]) != key(xs[i])
    ensures key(xs[i]) in UpsertAll(m, xs, key)
    ensures UpsertAll(m, xs, key)[key(xs[i])] == xs[i]
    decreases |xs|
  {
    if i < |xs| - 1 {
      UpsertAllLastWins(m, xs[..|xs| - 1], key, i);
    }
  }

  /** Inserting rows under their own keys keeps the table keyed. */
  lemma {:induction false} UpsertAllKeyed<T>(m: map<string, T>, xs: seq<T>, key: T -> string)
    requires KeyedBy(m, key)
    ensures KeyedBy(UpsertAll(m, xs, key), key)
    decreases |xs|
  {
    if xs != [] {
      UpsertAllKeyed(m, xs[..|xs| - 1], key);
    }
  }

  /** The rows stored under the given keys, in the order of the keys. */
  function Lookup<T>(m: map<string, T>, ks: seq<string>): (r: seq<T>)
    requires forall i :: 0 <= i < |ks| ==> ks[i] in m
    ensures |r| == |ks|
    ensures forall i :: 0 <= i < |r| ==> r[i] == m[ks[i]]
  {
    seq(|ks|, i requires 0 <= i < |ks| => m[ks[i]])
  }
}
