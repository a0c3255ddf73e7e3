/** Values shared by every module: optional values and map lookup. */
module Prelude {
  datatype Option<+T> = None | Some(value: T)

  function Lookup<K, V>(m: map<K, V>, k: K): (r: Option<V>)
    ensures r.Some? <==> k in m
    ensures r.Some? ==> r.value == m[k]
  {
    if k in m then Some(m[k]) else None
  }
}

/** Object keys, and the names and identifiers the provider derives from them. */
module Names {
  import opened Prelude

  // A namespaced object name.
  datatype Key = Key(ns: string, name: string)

  // A Node of the workload cluster `cluster` of namespace `ns`.
  datatype NodeKey = NodeKey(ns: string, cluster: string, name: string)

  // Kubernetes object names and namespaces are not empty and never contain a slash or a newline.
  predicate KubeName(s: string) {
    s != "" && '/' !in s && '\n' !in s
  }

  predicate KubeKey(k: Key) {
    KubeName(k.ns) && KubeName(k.name)
  }

  function SeedName(machine: string): string {
    machine + "-seed"
  }

  function SeedKey(k: Key): Key {
    Key(k.ns, SeedName(k.name))
  }

  function PoolLabel(cluster: string): string {
    cluster + "-cp"
  }

  const ProviderScheme: string := "kubeswift://"

  function ProviderID(k: Key): string {
    ProviderScheme + k.ns + "/" + k.name
  }

  // What comes before and after the first c.
  function SplitAt(s: string, c: char): Option<(string, string)> {
    if s == "" then None
    else if s[0] == c then Some(("", s[1..]))
    else match SplitAt(s[1..], c)
      case None => None
      case Some((a, b)) => Some(([s[0]] + a, b))
  }

  lemma {:induction false} SplitJoined(a: string, c: char, b: string)
    requires c !in a
    ensures SplitAt(a + [c] + b, c) == Some((a, b))
  {
    if a == "" {
      assert ("" + [c] + b)[1..] == b;
    } else {
      SplitJoined(a[1..], c, b);
      assert (a + [c] + b)[1..] == a[1..] + [c] + b;
      assert [a[0]] + a[1..] == a;
    }
  }

  // Reads a provider ID back: the namespace ends at the first slash after the scheme.
  function DecodeProviderID(s: string): Option<Key> {
    if !(ProviderScheme <= s) then None
    else match SplitAt(s[|ProviderScheme|..], '/')
      case None => None
      case Some((ns, name)) => Some(Key(ns, name))
  }

  lemma ProviderIDRoundTrip(k: Key)
    requires KubeName(k.ns)
    ensures DecodeProviderID(ProviderID(k)) == Some(k)
    ensures ProviderID(k) == "kubeswift://" + k.ns + "/" + k.name
  {
    assert ProviderID(k)[|ProviderScheme|..] == k.ns + "/" + k.name;
    SplitJoined(k.ns, '/', k.name);
  }

  lemma ProviderIDInjective(j: Key, k: Key)
    requires KubeName(j.ns) && KubeName(k.ns)
    ensures ProviderID(j) == ProviderID(k) <==> j == k
  {
    ProviderIDRoundTrip(j);
    ProviderIDRoundTrip(k);
  }

  // Without the naming rule two machines can share an ID.
  lemma ProviderIDNeedsKubeNames()
    ensures ProviderID(Key("a/b", "c")) == ProviderID(Key("a", "b/c"))
  {
    assert "a/b" + "/" + "c" == "a" + "/" + "b/c";
  }

  lemma SuffixCancels(a: string, b: string, suffix: string)
    requires a + suffix == b + suffix
    ensures a == b
  {
    assert |a| == |b|;
    assert a == (a + suffix)[..|a|];
    assert b == (b + suffix)[..|b|];
  }

  lemma SeedKeyInjective(j: Key, k: Key)
    ensures SeedKey(j) == SeedKey(k) <==> j == k
  {
    if SeedKey(j) == SeedKey(k) {
      SuffixCancels(j.name, k.name, "-seed");
    }
  }

  lemma PoolLabelInjective(a: string, b: string)
    ensures PoolLabel(a) == PoolLabel(b) <==> a == b
  {
    if PoolLabel(a) == PoolLabel(b) {
      SuffixCancels(a, b, "-cp");
    }
  }
}
