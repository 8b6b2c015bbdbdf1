/** Channel metadata lookups: Python dicts as ordered association lists, the channel name to
    index map, its inverse, and the resolution of the channels a run processes. */
module ChannelPlan {
  import opened Outcomes

  /** A Python dict: pairs in insertion order, no key twice. */
  predicate DistinctKeys<K(==), V>(s: seq<(K, V)>) {
    forall i, j | 0 <= i < j < |s| :: s[i].0 != s[j].0
  }

  type Dict<K(==), V> = s: seq<(K, V)> | DistinctKeys(s) witness []

  /** The keys of a dict in iteration order, as `for key in d`. */
  function Keys<K(==), V>(d: Dict<K, V>): (ks: seq<K>)
    ensures |ks| == |d| && forall i | 0 <= i < |d| :: ks[i] == d[i].0
  {
    seq(|d|, i requires 0 <= i < |d| => d[i].0)
  }

  /** `d[k]`, None where Python raises KeyError. */
  function Get<K(==), V>(d: seq<(K, V)>, k: K): (r: Option<V>)
    ensures r.Some? <==> exists i | 0 <= i < |d| :: d[i].0 == k
    ensures r.Some? ==> exists i | 0 <= i < |d| :: d[i] == (k, r.value)
  {
    if |d| == 0 then None
    else if d[0].0 == k then Some(d[0].1)
    else
      var r := Get(d[1..], k);
      assert forall i | 1 <= i < |d| :: d[i] == d[1..][i - 1];
      r
  }

  /** In a dict, looking up the key of any entry finds that entry's value. */
  lemma {:induction false} GetEntry<K, V>(d: Dict<K, V>, i: nat)
    requires i < |d|
    ensures Get(d, d[i].0) == Some(d[i].1)
  {
    if i > 0 {
      var tail: Dict<K, V> := d[1..];
      GetEntry(tail, i - 1);
    }
  }

  /** Different keys never share an index. */
  predicate Injective<K, V(==)>(d: seq<(K, V)>) {
    forall i, j | 0 <= i < j < |d| :: d[i].1 != d[j].1
  }

  /** `dict(zip(d.values(), d.keys()))[v]`: where several keys share the value v, the later
      pair overwrites the earlier one, so the last such key is found. */
  function Invert<K, V(==)>(d: seq<(K, V)>, v: V): (r: Option<K>)
    ensures r.Some? <==> exists i | 0 <= i < |d| :: d[i].1 == v
    ensures r.Some? ==> exists i | 0 <= i < |d| ::
      d[i] == (r.value, v) && forall j | i < j < |d| :: d[j].1 != v
  {
    if |d| == 0 then None
    else if d[|d| - 1].1 == v then Some(d[|d| - 1].0)
    else
      var front := d[..|d| - 1];
      var r := Invert(front, v);
      assert r.Some? ==> exists i | 0 <= i < |d| :: d[i] == (r.value, v) && forall j | i < j < |d| :: d[j].1 != v by {
        if r.Some? {
          var i :| 0 <= i < |front| && front[i] == (r.value, v) && forall j | i < j < |front| :: front[j].1 != v;
          assert d[i] == front[i];
          assert forall j | i < j < |d| :: d[j].1 != v by {
            forall j | i < j < |d| ensures d[j].1 != v {
              if j < |front| { assert d[j] == front[j]; }
            }
          }
        }
      }
      assert (exists i | 0 <= i < |d| :: d[i].1 == v) ==> r.Some? by {
        if exists i | 0 <= i < |d| :: d[i].1 == v {
          var i :| 0 <= i < |d| && d[i].1 == v;
          assert i < |front| && front[i] == d[i];
        }
      }
      r
  }

  /** For an injective dict, inversion undoes lookup. */
  lemma InvertUndoesGet<K, V>(d: Dict<K, V>, k: K)
    requires Injective(d)
    requires Get(d, k).Some?
    ensures Invert(d, Get(d, k).value) == Some(k)
  {
    var v := Get(d, k).value;
    var i :| 0 <= i < |d| && d[i] == (k, v);
    var r := Invert(d, v);
    var i' :| 0 <= i' < |d| && d[i'] == (r.value, v) && forall j | i' < j < |d| :: d[j].1 != v;
    assert i == i';
  }

  /** Whatever inversion finds, looking it up gives back the index, injective or not. */
  lemma GetUndoesInvert<K, V>(d: Dict<K, V>, v: V)
    requires Invert(d, v).Some?
    ensures Get(d, Invert(d, v).value) == Some(v)
  {
    var i :| 0 <= i < |d| && d[i] == (Invert(d, v).value, v);
    GetEntry(d, i);
  }

  /** The metadata's channel map: channel name to channel index. */
  type ChannelMap = Dict<string, nat>

  /** `_get_channel_name(idx)`: the channel called idx, or KeyError(idx). */
  function ChannelName(cm: ChannelMap, idx: nat): (r: Result<string>)
    ensures r.Err? <==> forall i | 0 <= i < |cm| :: cm[i].1 != idx
    ensures r.Err? ==> r.error == KeyError(IndexKey(idx))
    ensures r.Ok? ==> Get(cm, r.value) == Some(idx)
  {
    match Invert(cm, idx)
    case None => Err(KeyError(IndexKey(idx)))
    case Some(name) => GetUndoesInvert(cm, idx); Ok(name)
  }

  /** For an injective channel map, naming the index of a channel gives the channel back. */
  lemma ChannelNameInverts(cm: ChannelMap, name: string)
    requires Injective(cm)
    requires Get(cm, name).Some?
    ensures ChannelName(cm, Get(cm, name).value) == Ok(name)
  {
    InvertUndoesGet(cm, name);
  }

  /** `idx` lists, in order, the index of each name. */
  predicate Resolved(cm: ChannelMap, names: seq<string>, idx: seq<nat>) {
    |idx| == |names| && forall i | 0 <= i < |names| :: Get(cm, names[i]) == Some(idx[i])
  }

  /** `_get_channel_indices`: the index of every processed channel, in the order the channels are
      listed; KeyError for the first name the channel map does not know. */
  method GetChannelIndices(cm: ChannelMap, names: seq<string>) returns (r: Result<seq<nat>>)
    ensures r.Ok? <==> forall i | 0 <= i < |names| :: Get(cm, names[i]).Some?
    ensures r.Ok? ==> Resolved(cm, names, r.value)
    ensures r.Err? ==> exists i | 0 <= i < |names| ::
      && Get(cm, names[i]).None?
      && (forall j | 0 <= j < i :: Get(cm, names[j]).Some?)
      && r.error == KeyError(NameKey(names[i]))
  {
    var indices: seq<nat> := [];
    for i := 0 to |names|
      invariant Resolved(cm, names[..i], indices)
    {
      var idx := Get(cm, names[i]);
      if idx.None? {
        assert forall j | 0 <= j < i :: names[..i][j] == names[j];
        return Err(KeyError(NameKey(names[i])));
      }
      indices := indices + [idx.value];
    }
    assert names[..|names|] == names;
    r := Ok(indices);
  }
}
