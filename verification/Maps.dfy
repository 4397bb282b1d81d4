/** Finite-map vocabulary shared by the model: lookup, patches and differences. */
module Maps {

  datatype Option<+T> = None | Some(value: T)

  function Get<K, V>(m: map<K, V>, k: K): Option<V> {
    if k in m then Some(m[k]) else None
  }

  /** Overwrites or removes every key the patch names and keeps all others. */
  function Patch<K, V>(m: map<K, V>, patch: map<K, Option<V>>): map<K, V> {
    map k | k in m.Keys + patch.Keys && (k in patch ==> patch[k].Some?) ::
      if k in patch then patch[k].value else m[k]
  }

  /** The patch naming exactly the keys whose presence or value differs. */
  function Diff<K, V(==)>(before: map<K, V>, after: map<K, V>): map<K, Option<V>> {
    map k | k in before.Keys + after.Keys && Get(before, k) != Get(after, k) :: Get(after, k)
  }

  /** The part of a map whose keys are no longer waiting to be processed. */
  function Done<K, V>(m: map<K, V>, todo: set<K>): map<K, V> {
    map k | k in m && k !in todo :: m[k]
  }

  lemma PatchDiff<K, V>(before: map<K, V>, after: map<K, V>)
    ensures Patch(before, Diff(before, after)) == after
  {
    var patched := Patch(before, Diff(before, after));
    forall k
      ensures Get(patched, k) == Get(after, k)
    {
    }
    MapsEqual(patched, after);
  }

  lemma MapsEqual<K, V>(a: map<K, V>, b: map<K, V>)
    requires forall k :: Get(a, k) == Get(b, k)
    ensures a == b
  {
    forall k
      ensures k in a <==> k in b
      ensures k in a ==> a[k] == b[k]
    {
      assert Get(a, k) == Get(b, k);
    }
  }

  lemma PatchMerge<K, V>(m: map<K, V>, first: map<K, Option<V>>, second: map<K, Option<V>>)
    ensures Patch(Patch(m, first), second) == Patch(m, first + second)
  {
  }

  lemma DiffEmpty<K, V>(before: map<K, V>, after: map<K, V>)
    ensures Diff(before, after) == map[] <==> before == after
  {
    if Diff(before, after) == map[] {
      forall k
        ensures Get(before, k) == Get(after, k)
      {
        assert k !in Diff(before, after);
      }
      MapsEqual(before, after);
    }
  }

  lemma DoneStep<K, V>(m: map<K, V>, todo: set<K>, k: K)
    requires k in m && k in todo
    ensures Done(m, todo - {k}) == Done(m, todo)[k := m[k]]
  {
  }

  lemma PatchStep<K, V>(m: map<K, V>, patch: map<K, Option<V>>, k: K, v: Option<V>)
    ensures Patch(m, patch[k := v]) ==
            if v.Some? then Patch(m, patch)[k := v.value] else Patch(m, patch) - {k}
  {
  }
}
