/** Names the controller gives to cloud objects, and why a name tells its service. */
module Naming {
  import opened GoStrings
  import opened Apis

  function GetFirstUID(uid: string): string {
    Split(uid, '-')[0]
  }

  /** The name of every listener of a service, and the prefix by which it knows its own. */
  function ListenerName(ns: string, name: string): string {
    "listener_" + ns + "_" + name + "_"
  }

  function LBName(cluster: string, svc: Service): string {
    "k8s_lb_" + cluster + "_" + svc.ns + "_" + svc.name + "_" + GetFirstUID(svc.uid)
  }

  /** The first part of a uid ends before the first dash, or with the uid. */
  lemma FirstUIDIff(uid: string, first: string)
    ensures first == GetFirstUID(uid) <==> '-' !in first && (first == uid || first + "-" <= uid)
  {
    var parts := Split(uid, '-');
    JoinSplit(uid, '-');
    assert parts[0] in parts;
    if |parts| > 1 { assert parts[0] + "-" <= Join(parts, '-'); }
    if '-' !in first && first == uid { SplitNoSep(uid, '-'); }
    if '-' !in first && first + "-" <= uid {
      SplitAtSep(first, '-', uid[|first| + 1..]);
      assert uid == first + "-" + uid[|first| + 1..];
    }
  }

  /** Names of Kubernetes objects are DNS labels (section 2.3.1 of RFC 1035). */
  predicate Label(s: string) {
    '_' !in s
  }

  /** A segment closed by a separator it does not contain is fixed by the text it begins. */
  lemma SameSegment(a: string, b: string, c: char, x: string)
    requires c !in a && c !in b
    requires a + [c] <= x && b + [c] <= x
    ensures a == b
  {
    assert forall i | 0 <= i < |a| :: x[i] == a[i] && a[i] in a;
    assert forall i | 0 <= i < |b| :: x[i] == b[i] && b[i] in b;
    assert x[|a|] == (a + [c])[|a|] && x[|b|] == (b + [c])[|b|];
    assert a == x[..|a|] && b == x[..|b|];
  }

  /** No listener name starts with the prefixes of two services. */
  lemma OwnerUnique(x: string, ns1: string, name1: string, ns2: string, name2: string)
    requires Label(ns1) && Label(name1) && Label(ns2) && Label(name2)
    requires HasPrefix(x, ListenerName(ns1, name1)) && HasPrefix(x, ListenerName(ns2, name2))
    ensures ns1 == ns2 && name1 == name2
  {
    var start := |"listener_"|;
    var y := x[start..];
    assert ns1 + "_" + name1 + "_" == ListenerName(ns1, name1)[start..] <= y;
    assert ns2 + "_" + name2 + "_" == ListenerName(ns2, name2)[start..] <= y;
    assert ns1 + "_" <= y by { assert ns1 + "_" <= ns1 + "_" + name1 + "_"; }
    assert ns2 + "_" <= y by { assert ns2 + "_" <= ns2 + "_" + name2 + "_"; }
    SameSegment(ns1, ns2, '_', y);
    var z := y[|ns1| + 1..];
    assert name1 + "_" == (ns1 + "_" + name1 + "_")[|ns1| + 1..] <= z;
    assert name2 + "_" == (ns2 + "_" + name2 + "_")[|ns2| + 1..] <= z;
    SameSegment(name1, name2, '_', z);
  }

  /** Two services can share a listener name exactly when the name of one begins with that of the other. */
  lemma SharedNameIff(ns1: string, name1: string, ns2: string, name2: string)
    ensures (exists x :: HasPrefix(x, ListenerName(ns1, name1)) && HasPrefix(x, ListenerName(ns2, name2))) <==>
            ListenerName(ns1, name1) <= ListenerName(ns2, name2) || ListenerName(ns2, name2) <= ListenerName(ns1, name1)
  {
    var a, b := ListenerName(ns1, name1), ListenerName(ns2, name2);
    if a <= b { assert HasPrefix(b, a) && HasPrefix(b, b); }
    if b <= a { assert HasPrefix(a, a) && HasPrefix(a, b); }
    forall x | HasPrefix(x, a) && HasPrefix(x, b) ensures a <= b || b <= a {
      assert if |a| <= |b| then a == b[..|a|] else b == a[..|b|];
    }
  }

  /** The rule about labels is needed: with an underscore two services share one listener name. */
  lemma UnderscoreConfusesOwners()
    ensures ListenerName("a_b", "c") == ListenerName("a", "b_c")
  {
  }

  /** Two services of one cluster share a load balancer name only when they are one service. */
  lemma LBNameUnique(cluster: string, a: Service, b: Service)
    requires Label(a.ns) && Label(a.name) && Label(b.ns) && Label(b.name)
    requires LBName(cluster, a) == LBName(cluster, b)
    ensures a.ns == b.ns && a.name == b.name && GetFirstUID(a.uid) == GetFirstUID(b.uid)
  {
    var start := |"k8s_lb_" + cluster + "_"|;
    var ua, ub := GetFirstUID(a.uid), GetFirstUID(b.uid);
    var y := LBName(cluster, a)[start..];
    assert y == a.ns + "_" + a.name + "_" + ua;
    assert y == b.ns + "_" + b.name + "_" + ub;
    assert a.ns + "_" <= y by { assert a.ns + "_" <= a.ns + "_" + a.name + "_" + ua; }
    assert b.ns + "_" <= y by { assert b.ns + "_" <= b.ns + "_" + b.name + "_" + ub; }
    SameSegment(a.ns, b.ns, '_', y);
    var z := y[|a.ns| + 1..];
    assert z == a.name + "_" + ua && z == b.name + "_" + ub;
    SameSegment(a.name, b.name, '_', z);
    assert z[|a.name| + 1..] == ua == ub;
  }
}
