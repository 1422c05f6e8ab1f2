/** How the connector shapes the subscription, location and network listings
    into insertion-ordered maps: entries sorted by display name with Java's
    `String.compareTo`, then put one by one into a linked map. */
module Listings {
  import opened Wrappers
  import opened Text
  /** An entry keyed by an identifier and shown by a display name: a
      subscription (id, display name) or a location (name, display name). */
  datatype Named = Named(key: string, displayName: string)

  /** A linked hash map: keys in first-insertion order, and their values. */
  datatype LinkedMap<V> = LinkedMap(keys: seq<string>, values: map<string, V>)

  ghost predicate ValidMap<V>(m: LinkedMap<V>)
  {
    && (forall i, j :: 0 <= i < j < |m.keys| ==> m.keys[i] != m.keys[j])
    && (forall k :: k in m.values <==> k in m.keys)
  }

  /** `put`: a new key goes to the end, an existing key keeps its place and
      takes the new value. */
  function Put<V>(m: LinkedMap<V>, k: string, v: V): (r: LinkedMap<V>)
    ensures ValidMap(m) ==> ValidMap(r)
    ensures r.values == m.values[k := v]
  {
    LinkedMap(if k in m.values then m.keys else m.keys + [k], m.values[k := v])
  }

  /** Java's `String.compareTo(a, b) <= 0`: lexicographic by character, a
      proper prefix first. */
  predicate StrLe(a: string, b: string)
  {
    a == [] || (b != [] && (a[0] < b[0] || (a[0] == b[0] && StrLe(a[1..], b[1..]))))
  }

  lemma {:induction false} StrLeTotal(a: string, b: string)
    ensures StrLe(a, b) || StrLe(b, a)
  {
    if a != [] && b != [] && a[0] == b[0] {
      StrLeTotal(a[1..], b[1..]);
    }
  }

  lemma {:induction false} StrLeTransitive(a: string, b: string, c: string)
    requires StrLe(a, b) && StrLe(b, c)
    ensures StrLe(a, c)
  {
    if a != [] && b != [] && c != [] && a[0] == b[0] && b[0] == c[0] {
      StrLeTransitive(a[1..], b[1..], c[1..]);
    }
  }

  lemma {:induction false} StrLeAntisymmetric(a: string, b: string)
    requires StrLe(a, b) && StrLe(b, a)
    ensures a == b
  {
    if a != [] && b != [] {
      StrLeAntisymmetric(a[1..], b[1..]);
      assert a == [a[0]] + a[1..] && b == [b[0]] + b[1..];
    }
  }

  ghost predicate SortedByDisplayName(s: seq<Named>)
  {
    forall i :: 0 < i < |s| ==> StrLe(s[i - 1].displayName, s[i].displayName)
  }

  /** Inserts `x` after every entry whose display name is not greater. */
  function InsertByDisplayName(s: seq<Named>, x: Named): (r: seq<Named>)
    requires SortedByDisplayName(s)
    ensures SortedByDisplayName(r)
    ensures multiset(r) == multiset(s) + multiset{x}
    ensures |r| == |s| + 1
    ensures r[|r| - 1] == x || (s != [] && r[|r| - 1] == s[|s| - 1])
  {
    if s == [] then [x]
    else
      var last := s[|s| - 1];
      if StrLe(last.displayName, x.displayName) then s + [x]
      else
        StrLeTotal(last.displayName, x.displayName);
        var init := s[..|s| - 1];
        assert s == init + [last];
        InsertByDisplayName(init, x) + [last]
  }

  /** `Collections.sort` with a comparator on display names. */
  function SortByDisplayName(s: seq<Named>): (r: seq<Named>)
    ensures SortedByDisplayName(r)
    ensures multiset(r) == multiset(s)
  {
    if s == [] then []
    else
      assert s == s[..|s| - 1] + [s[|s| - 1]];
      InsertByDisplayName(SortByDisplayName(s[..|s| - 1]), s[|s| - 1])
  }

  /** Adjacent order is total order. */
  lemma {:induction false} SortedIsOrdered(s: seq<Named>, i: int, j: int)
    requires SortedByDisplayName(s) && 0 <= i <= j < |s|
    ensures StrLe(s[i].displayName, s[j].displayName)
    decreases j - i
  {
    if i == j {
      StrLeReflexive(s[i].displayName);
    } else {
      SortedIsOrdered(s, i, j - 1);
      StrLeTransitive(s[i].displayName, s[j - 1].displayName, s[j].displayName);
    }
  }

  lemma {:induction false} StrLeReflexive(a: string)
    ensures StrLe(a, a)
  {
    if a != [] {
      StrLeReflexive(a[1..]);
    }
  }

  /** The put loop over an entry list. */
  function PutAll(entries: seq<Named>): (m: LinkedMap<string>)
    ensures ValidMap(m)
  {
    if entries == [] then LinkedMap([], map[])
    else
      var e := entries[|entries| - 1];
      Put(PutAll(entries[..|entries| - 1]), e.key, e.displayName)
  }

  function Keys(entries: seq<Named>): (r: seq<string>)
    ensures |r| == |entries| && forall i :: 0 <= i < |r| ==> r[i] == entries[i].key
  {
    if entries == [] then [] else Keys(entries[..|entries| - 1]) + [entries[|entries| - 1].key]
  }

  /** Exactly the listed keys are in the map. */
  lemma {:induction false} PutAllMembers(entries: seq<Named>)
    ensures forall k :: k in PutAll(entries).values <==> k in Keys(entries)
  {
    if entries != [] {
      PutAllMembers(entries[..|entries| - 1]);
    }
  }

  /** A key takes the display name of its last entry. */
  lemma {:induction false} PutAllLastValue(entries: seq<Named>, i: int)
    requires 0 <= i < |entries|
    requires forall j :: i < j < |entries| ==> entries[j].key != entries[i].key
    ensures entries[i].key in PutAll(entries).values
    ensures PutAll(entries).values[entries[i].key] == entries[i].displayName
  {
    var n := |entries| - 1;
    if i < n {
      PutAllLastValue(entries[..n], i);
    }
  }

  /** With distinct keys the map keeps the entries' order. */
  lemma {:induction false} PutAllKeepsOrder(entries: seq<Named>)
    requires forall i, j :: 0 <= i < j < |entries| ==> entries[i].key != entries[j].key
    ensures PutAll(entries).keys == Keys(entries)
  {
    if entries != [] {
      var n := |entries| - 1;
      PutAllKeepsOrder(entries[..n]);
      PutAllMembers(entries[..n]);
      assert entries[n].key !in Keys(entries[..n]);
    }
  }

  /** `getSubscriptionsAsync` / `getLocationsAsync` with distinct keys: the
      map lists its keys in display-name order and maps each to its own
      display name. */
  lemma ShapedInDisplayNameOrder(entries: seq<Named>)
    requires forall i, j :: 0 <= i < j < |entries| ==> entries[i].key != entries[j].key
    ensures var m := PutAll(SortByDisplayName(entries));
      && (forall k :: k in m.values <==> exists e :: e in entries && e.key == k)
      && (forall e :: e in entries ==> e.key in m.values && m.values[e.key] == e.displayName)
      && (forall i, j :: 0 <= i <= j < |m.keys| ==> StrLe(m.values[m.keys[i]], m.values[m.keys[j]]))
  {
    var sorted := SortByDisplayName(entries);
    SameMembers(entries, sorted);
    DistinctKeysSorted(entries, sorted);
    ShapedMembers(entries, sorted);
    ShapedValues(entries, sorted);
    ShapedOrder(sorted);
  }

  lemma ShapedMembers(entries: seq<Named>, sorted: seq<Named>)
    requires forall e :: e in entries <==> e in sorted
    ensures forall k :: k in PutAll(sorted).values <==> exists e :: e in entries && e.key == k
  {
    PutAllMembers(sorted);
    forall k ensures k in PutAll(sorted).values <==> exists e :: e in entries && e.key == k {
      if k in PutAll(sorted).values {
        var i :| 0 <= i < |sorted| && Keys(sorted)[i] == k;
        assert sorted[i] in entries;
      }
      if e :| e in entries && e.key == k {
        var i :| 0 <= i < |sorted| && sorted[i] == e;
        assert Keys(sorted)[i] == k;
      }
    }
  }

  lemma ShapedValues(entries: seq<Named>, sorted: seq<Named>)
    requires forall e :: e in entries ==> e in sorted
    requires forall i, j :: 0 <= i < j < |sorted| ==> sorted[i].key != sorted[j].key
    ensures forall e :: e in entries ==> e.key in PutAll(sorted).values && PutAll(sorted).values[e.key] == e.displayName
  {
    forall e | e in entries ensures e.key in PutAll(sorted).values && PutAll(sorted).values[e.key] == e.displayName {
      var i :| 0 <= i < |sorted| && sorted[i] == e;
      PutAllLastValue(sorted, i);
    }
  }

  lemma ShapedOrder(sorted: seq<Named>)
    requires SortedByDisplayName(sorted)
    requires forall i, j :: 0 <= i < j < |sorted| ==> sorted[i].key != sorted[j].key
    ensures var m := PutAll(sorted);
      forall i, j :: 0 <= i <= j < |m.keys| ==> StrLe(m.values[m.keys[i]], m.values[m.keys[j]])
  {
    var m := PutAll(sorted);
    PutAllKeepsOrder(sorted);
    forall i | 0 <= i < |sorted| ensures m.values[sorted[i].key] == sorted[i].displayName {
      PutAllLastValue(sorted, i);
    }
    forall i, j | 0 <= i <= j < |m.keys| ensures StrLe(m.values[m.keys[i]], m.values[m.keys[j]]) {
      SortedIsOrdered(sorted, i, j);
    }
  }

  lemma SameMembers(a: seq<Named>, b: seq<Named>)
    requires multiset(a) == multiset(b)
    ensures forall e :: e in a <==> e in b
  {
    forall e ensures e in a <==> e in b {
      assert e in a <==> e in multiset(a);
      assert e in b <==> e in multiset(b);
    }
  }

  /** Sorting keeps keys distinct. */
  lemma DistinctKeysSorted(entries: seq<Named>, sorted: seq<Named>)
    requires forall i, j :: 0 <= i < j < |entries| ==> entries[i].key != entries[j].key
    requires multiset(sorted) == multiset(entries)
    ensures forall i, j :: 0 <= i < j < |sorted| ==> sorted[i].key != sorted[j].key
  {
    forall i, j | 0 <= i < j < |sorted| ensures sorted[i].key != sorted[j].key {
      if sorted[i].key == sorted[j].key {
        assert sorted[i] in multiset(entries) && sorted[j] in multiset(entries);
        var a :| 0 <= a < |entries| && entries[a] == sorted[i];
        var b :| 0 <= b < |entries| && entries[b] == sorted[j];
        if a == b {
          assert sorted[i] == sorted[j];
          SameElementTwice(sorted, i, j);
          assert multiset(entries)[entries[a]] >= 2;
          CountOfDistinct(entries, a);
        }
      }
    }
  }

  lemma SameElementTwice(s: seq<Named>, i: int, j: int)
    requires 0 <= i < j < |s| && s[i] == s[j]
    ensures multiset(s)[s[i]] >= 2
  {
    assert s == s[..i] + [s[i]] + s[i + 1..j] + [s[j]] + s[j + 1..];
  }

  lemma CountOfDistinct(s: seq<Named>, a: int)
    requires forall i, j :: 0 <= i < j < |s| ==> s[i].key != s[j].key
    requires 0 <= a < |s|
    ensures multiset(s)[s[a]] == 1
  {
    assert s == s[..a] + [s[a]] + s[a + 1..];
    assert s[a] !in s[..a];
    assert s[a] !in s[a + 1..];
  }

  /** A virtual network: its identifier, region and subnet names. */
  datatype Subnet = Subnet(name: string)
  datatype VirtualNetwork = VirtualNetwork(id: string, location: string, subnets: seq<Subnet>)

  function SubnetNames(subnets: seq<Subnet>): (r: seq<string>)
    ensures |r| == |subnets| && forall i :: 0 <= i < |r| ==> r[i] == subnets[i].name
  {
    if subnets == [] then [] else SubnetNames(subnets[..|subnets| - 1]) + [subnets[|subnets| - 1].name]
  }

  /** The network filter and put loop: networks in `location` (ignoring
      case; no location matches nothing), by identifier, to their subnet names. */
  function NetworkMap(networks: seq<VirtualNetwork>, location: Option<string>): (m: LinkedMap<seq<string>>)
    ensures ValidMap(m)
  {
    if networks == [] then LinkedMap([], map[])
    else
      var m := NetworkMap(networks[..|networks| - 1], location);
      var n := networks[|networks| - 1];
      if location.Some? && EqualsIgnoreCase(n.location, location.value) then Put(m, n.id, SubnetNames(n.subnets))
      else m
  }

  predicate InRegion(n: VirtualNetwork, location: Option<string>)
  {
    location.Some? && EqualsIgnoreCase(n.location, location.value)
  }

  /** A network is listed exactly when one with its identifier lies in the
      region. */
  lemma {:induction false} NetworkMapMembers(networks: seq<VirtualNetwork>, location: Option<string>, id: string)
    ensures id in NetworkMap(networks, location).values <==>
      exists j :: 0 <= j < |networks| && networks[j].id == id && InRegion(networks[j], location)
  {
    if networks != [] {
      var n := |networks| - 1;
      NetworkMapMembers(networks[..n], location, id);
      assert forall j :: 0 <= j < n ==> networks[..n][j] == networks[j];
    }
  }

  /** A listed network carries the subnets of the last network in the region
      with its identifier. */
  lemma {:induction false} NetworkMapLastValue(networks: seq<VirtualNetwork>, location: Option<string>, i: int)
    requires 0 <= i < |networks| && InRegion(networks[i], location)
    requires forall j :: i < j < |networks| && networks[j].id == networks[i].id ==> !InRegion(networks[j], location)
    ensures networks[i].id in NetworkMap(networks, location).values
    ensures NetworkMap(networks, location).values[networks[i].id] == SubnetNames(networks[i].subnets)
  {
    var n := |networks| - 1;
    if i < n {
      NetworkMapLastValue(networks[..n], location, i);
    }
  }

  /** With no region configured no network is listed. */
  lemma {:induction false} NoLocationNoNetworks(networks: seq<VirtualNetwork>)
    ensures NetworkMap(networks, None) == LinkedMap([], map[])
  {
    if networks != [] {
      NoLocationNoNetworks(networks[..|networks| - 1]);
    }
  }

  /** The put loop of the subscription and location listings. */
  method PutInOrder(entries: seq<Named>) returns (m: LinkedMap<string>)
    ensures m == PutAll(entries)
  {
    m := LinkedMap([], map[]);
    for i := 0 to |entries|
      invariant m == PutAll(entries[..i])
    {
      assert entries[..i + 1][..i] == entries[..i];
      m := Put(m, entries[i].key, entries[i].displayName);
    }
    assert entries[..|entries|] == entries;
  }

  /** The filter and put loop of the network listing. */
  method CollectNetworks(networks: seq<VirtualNetwork>, location: Option<string>) returns (m: LinkedMap<seq<string>>)
    ensures m == NetworkMap(networks, location)
  {
    m := LinkedMap([], map[]);
    for i := 0 to |networks|
      invariant m == NetworkMap(networks[..i], location)
    {
      assert networks[..i + 1][..i] == networks[..i];
      var network := networks[i];
      if location.Some? && EqualsIgnoreCase(network.location, location.value) {
        var names: seq<string> := [];
        for k := 0 to |network.subnets|
          invariant names == SubnetNames(network.subnets[..k])
        {
          assert network.subnets[..k + 1][..k] == network.subnets[..k];
          names := names + [network.subnets[k].name];
        }
        assert network.subnets[..|network.subnets|] == network.subnets;
        m := Put(m, network.id, names);
      }
    }
    assert networks[..|networks|] == networks;
  }
}
