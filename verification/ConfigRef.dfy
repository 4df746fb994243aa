/**
 The "namespace/name" reference on pods: written by the replica controller, read by the webhook
 with strings.Cut and by the pod watch with a scanning loop.
 */
module ConfigRef {
  import opened Wrappers

  datatype Ref = Ref(namespace: string, name: string)

  /** The position of the first slash, or the length without one. */
  function FirstSlash(s: string): (k: nat)
    ensures k <= |s| && '/' !in s[..k]
    ensures k < |s| ==> s[k] == '/'
  {
    if s == "" || s[0] == '/' then 0
    else
      var k := 1 + FirstSlash(s[1..]);
      assert s[..k] == [s[0]] + s[1..][..k - 1];
      k
  }

  /** What a reference with a slash points at; an empty namespace means the pod's own. */
  function Points(ref: string, podNamespace: string): Ref
    requires '/' in ref
  {
    var k := FirstSlash(ref);
    assert ref[..|ref|] == ref;
    Ref(if k == 0 then podNamespace else ref[..k], ref[k + 1..])
  }

  datatype Resolved = Absent | Malformed | At(ref: Ref)

  /** The webhook: no reference is no error, a reference without a slash is one. */
  method ResolveByCut(ref: string, podNamespace: string) returns (r: Resolved)
    ensures r == if ref == "" then Absent else if '/' in ref then At(Points(ref, podNamespace)) else Malformed
  {
    if ref == "" {
      return Absent;
    }
    var k := FirstSlash(ref);
    if k == |ref| {
      assert ref[..k] == ref;
      return Malformed;
    }
    var ns, name := ref[..k], ref[k + 1..];
    if ns == "" {
      ns := podNamespace;
    }
    return At(Ref(ns, name));
  }

  /** The pod watch: a reference without a slash is taken as a name in the pod's namespace. */
  method ResolveByScan(ref: string, podNamespace: string) returns (r: Option<Ref>)
    ensures r == if ref == "" then None
                 else if '/' in ref then Some(Points(ref, podNamespace)) else Some(Ref(podNamespace, ref))
  {
    if ref == "" {
      return None;
    }
    var ns, name := "", ref;
    var i := 0;
    while i < |ref|
      invariant 0 <= i <= |ref|
      invariant '/' !in ref[..i] && ns == "" && name == ref
    {
      if ref[i] == '/' {
        SlashAt(ref, i);
        ns, name := ref[..i], ref[i + 1..];
        break;
      }
      i := i + 1;
      assert ref[..i] == ref[..i - 1] + [ref[i - 1]];
    }
    assert i == |ref| ==> ref[..i] == ref;
    if ns == "" {
      ns := podNamespace;
    }
    return Some(Ref(ns, name));
  }

  lemma SlashAt(s: string, i: nat)
    requires i < |s| && s[i] == '/' && '/' !in s[..i]
    ensures FirstSlash(s) == i
  {
  }

  /** A reference splits at its first slash, and an empty namespace is the pod's own. */
  lemma PointsExact(namespace: string, name: string, podNamespace: string)
    requires '/' !in namespace
    ensures '/' in namespace + "/" + name
    ensures Points(namespace + "/" + name, podNamespace) ==
            Ref(if namespace == "" then podNamespace else namespace, name)
  {
    var s := namespace + "/" + name;
    assert s[..|namespace|] == namespace && s[|namespace|] == '/';
    SlashAt(s, |namespace|);
  }

  lemma SplitOnce(a: string, x: string, b: string, y: string)
    requires '/' !in a && '/' !in b && a + "/" + x == b + "/" + y
    ensures a == b && x == y
  {
    var l, r := a + "/" + x, b + "/" + y;
    assert l[|a|] == '/' && r[|b|] == '/';
    assert l[..|a|] == a && r[..|b|] == b;
    assert l[|a| + 1..] == x && r[|b| + 1..] == y;
  }

  /** Whatever the controller writes for a slash-free, non-empty namespace is read back unchanged. */
  lemma RefRoundTrip(ref: Ref, podNamespace: string)
    requires ref.namespace != "" && '/' !in ref.namespace
    ensures '/' in ref.namespace + "/" + ref.name
    ensures Points(ref.namespace + "/" + ref.name, podNamespace) == ref
  {
    PointsExact(ref.namespace, ref.name, podNamespace);
  }
}
