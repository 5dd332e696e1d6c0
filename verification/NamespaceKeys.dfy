/** Composite string keys. Registered steps live in one map under
    `{namespace}#{step_id}`; this module gives the slice of that map that belongs
    to one namespace, and says exactly when two namespaces cannot collide. */
module NamespaceKeys {
  import opened Prelude

  function StepKey(ns: string, stepId: string): string {
    ns + "#" + stepId
  }

  predicate InNamespace(key: string, ns: string) {
    ns + "#" <= key
  }

  /** The step id a key of the namespace decodes to. */
  function StepIdOf(key: string, ns: string): string
    requires InNamespace(key, ns)
  {
    key[|ns| + 1..]
  }

  /** No key of one namespace can be read as a key of the other. */
  predicate Separate(ns: string, other: string) {
    !(ns + "#" <= other + "#") && !(other + "#" <= ns + "#")
  }

  lemma KeyRoundTrip(ns: string, stepId: string)
    ensures InNamespace(StepKey(ns, stepId), ns)
    ensures StepIdOf(StepKey(ns, stepId), ns) == stepId
  {
  }

  lemma KeyDecodes(key: string, ns: string)
    requires InNamespace(key, ns)
    ensures StepKey(ns, StepIdOf(key, ns)) == key
  {
  }

  /** Collisions, exactly: some key is claimed by both namespaces iff one
      namespace extends the other by a `#`. */
  lemma SharedKeyIff(ns: string, other: string)
    ensures (exists key :: InNamespace(key, ns) && InNamespace(key, other)) <==> !Separate(ns, other)
  {
    if key :| InNamespace(key, ns) && InNamespace(key, other) {
      if |ns| <= |other| {
        assert (ns + "#") == key[..|ns| + 1] == (other + "#")[..|ns| + 1];
      } else {
        assert (other + "#") == key[..|other| + 1] == (ns + "#")[..|other| + 1];
      }
    }
    if ns + "#" <= other + "#" {
      KeyRoundTrip(other, "");
      assert InNamespace(StepKey(other, ""), ns);
    }
    if other + "#" <= ns + "#" {
      KeyRoundTrip(ns, "");
      assert InNamespace(StepKey(ns, ""), other);
    }
  }

  predicate HashFree(s: string) {
    '#' !in s
  }

  lemma HashFreePrefix(ns: string, other: string)
    requires HashFree(ns) && HashFree(other)
    requires ns + "#" <= other + "#"
    ensures ns == other
  {
    assert (other + "#")[|ns|] == (ns + "#")[|ns|] == '#';
    assert ns == (ns + "#")[..|ns|] == (other + "#")[..|ns|];
  }

  lemma HashFreeSeparate(ns: string, other: string)
    requires HashFree(ns) && HashFree(other) && ns != other
    ensures Separate(ns, other)
  {
    if ns + "#" <= other + "#" {
      HashFreePrefix(ns, other);
    }
    if other + "#" <= ns + "#" {
      HashFreePrefix(other, ns);
    }
  }

  // --- The slice of a keyed map that belongs to one namespace ---

  function Slice<V>(m: map<string, V>, ns: string): map<string, V> {
    map id | id in (set key | key in m && InNamespace(key, ns) :: StepIdOf(key, ns)) && StepKey(ns, id) in m
      :: m[StepKey(ns, id)]
  }

  /** The map with the whole slice of one namespace replaced. */
  function Splice<V>(m: map<string, V>, ns: string, part: map<string, V>): map<string, V> {
    (map key | key in m && !InNamespace(key, ns) :: m[key]) +
    (map key | key in (set id | id in part :: StepKey(ns, id)) && InNamespace(key, ns) && StepIdOf(key, ns) in part
       :: part[StepIdOf(key, ns)])
  }

  lemma SliceAt<V>(m: map<string, V>, ns: string, id: string)
    ensures id in Slice(m, ns) <==> StepKey(ns, id) in m
    ensures id in Slice(m, ns) ==> Slice(m, ns)[id] == m[StepKey(ns, id)]
  {
    KeyRoundTrip(ns, id);
  }

  lemma SpliceAt<V>(m: map<string, V>, ns: string, part: map<string, V>, key: string)
    ensures InNamespace(key, ns) ==> (key in Splice(m, ns, part) <==> StepIdOf(key, ns) in part)
    ensures InNamespace(key, ns) && key in Splice(m, ns, part) ==>
              Splice(m, ns, part)[key] == part[StepIdOf(key, ns)]
    ensures !InNamespace(key, ns) ==> (key in Splice(m, ns, part) <==> key in m)
    ensures !InNamespace(key, ns) && key in m ==> Splice(m, ns, part)[key] == m[key]
  {
    if InNamespace(key, ns) {
      KeyDecodes(key, ns);
    }
  }

  lemma SliceOfSplice<V>(m: map<string, V>, ns: string, part: map<string, V>)
    ensures Slice(Splice(m, ns, part), ns) == part
  {
    forall id
      ensures id in Slice(Splice(m, ns, part), ns) <==> id in part
      ensures id in part ==> Slice(Splice(m, ns, part), ns)[id] == part[id]
    {
      KeyRoundTrip(ns, id);
      SliceAt(Splice(m, ns, part), ns, id);
      SpliceAt(m, ns, part, StepKey(ns, id));
    }
  }

  lemma SpliceOfSplice<V>(m: map<string, V>, ns: string, part: map<string, V>, part': map<string, V>)
    ensures Splice(Splice(m, ns, part), ns, part') == Splice(m, ns, part')
  {
    forall key
      ensures key in Splice(Splice(m, ns, part), ns, part') <==> key in Splice(m, ns, part')
      ensures key in Splice(m, ns, part') ==>
                Splice(Splice(m, ns, part), ns, part')[key] == Splice(m, ns, part')[key]
    {
      SpliceAt(m, ns, part, key);
      SpliceAt(m, ns, part', key);
      SpliceAt(Splice(m, ns, part), ns, part', key);
    }
  }

  lemma SpliceOfSlice<V>(m: map<string, V>, ns: string)
    ensures Splice(m, ns, Slice(m, ns)) == m
  {
    forall key
      ensures key in Splice(m, ns, Slice(m, ns)) <==> key in m
      ensures key in m ==> Splice(m, ns, Slice(m, ns))[key] == m[key]
    {
      SpliceAt(m, ns, Slice(m, ns), key);
      if InNamespace(key, ns) {
        KeyDecodes(key, ns);
        SliceAt(m, ns, StepIdOf(key, ns));
      }
    }
  }

  /** A single insertion or removal under a step key, seen on the slice. */
  lemma SpliceOfUpdate<V>(m: map<string, V>, ns: string, id: string, v: Option<V>)
    ensures Set(m, StepKey(ns, id), v) == Splice(m, ns, Set(Slice(m, ns), id, v))
  {
    var part := Set(Slice(m, ns), id, v);
    KeyRoundTrip(ns, id);
    forall key
      ensures Get(Splice(m, ns, part), key) == Get(Set(m, StepKey(ns, id), v), key)
    {
      SpliceAt(m, ns, part, key);
      GetAfterSet(m, StepKey(ns, id), v, key);
      if InNamespace(key, ns) {
        KeyDecodes(key, ns);
        SliceAt(m, ns, StepIdOf(key, ns));
        GetAfterSet(Slice(m, ns), id, v, StepIdOf(key, ns));
      }
    }
    SameGets(Splice(m, ns, part), Set(m, StepKey(ns, id), v));
  }

  /** Replacing one namespace's slice leaves every separate namespace alone. */
  lemma SliceFrame<V>(m: map<string, V>, ns: string, part: map<string, V>, other: string)
    requires Separate(ns, other)
    ensures Slice(Splice(m, ns, part), other) == Slice(m, other)
  {
    forall id
      ensures id in Slice(Splice(m, ns, part), other) <==> id in Slice(m, other)
      ensures id in Slice(m, other) ==> Slice(Splice(m, ns, part), other)[id] == Slice(m, other)[id]
    {
      KeyRoundTrip(other, id);
      SharedKeyIff(ns, other);
      assert !InNamespace(StepKey(other, id), ns);
      SpliceAt(m, ns, part, StepKey(other, id));
      SliceAt(m, other, id);
      SliceAt(Splice(m, ns, part), other, id);
    }
  }
}
