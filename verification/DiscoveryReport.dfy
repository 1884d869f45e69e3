/** Which discovery reports the reconciler is given. */
module DiscoveryReport {
  import opened Common
  import opened DiscoveryTrace
  import opened Discovery

  predicate Alphanumeric(c: char) {
    '0' <= c <= '9' || 'A' <= c <= 'Z' || 'a' <= c <= 'z'
  }

  predicate IsLabel(s: string) {
    && s != [] && |s| <= 64 && Alphanumeric(s[0])
    && forall i :: 0 <= i < |s| ==> Alphanumeric(s[i]) || s[i] in {'.', '_', '-'}
  }

  /** A host as a report must have it, in code points: a lower-case hexadecimal identity of 64 digits, a label of 1 to
      64 letters, digits, dots, underscores and hyphens that starts with a letter or digit, and its own target. */
  ghost predicate WellFormed(h: Host) {
    && |h.endpointId| == 64
    && (forall i :: 0 <= i < 64 ==> 48 <= h.endpointId[i] as int <= 57 || 97 <= h.endpointId[i] as int <= 102)
    && 1 <= |h.host| <= 64 && h.host[0] as int !in {45, 46, 95}
    && (forall i :: 0 <= i < |h.host| ==>
          var c := h.host[i] as int;
          48 <= c <= 57 || 65 <= c <= 90 || 97 <= c <= 122 || c in {45, 46, 95})
    && h.sshTarget == "attached-" + h.endpointId
  }

  predicate Accepts(h: Host) {
    IsEndpoint(h.endpointId) && IsLabel(h.host) && h.sshTarget == Target(h.endpointId)
  }

  lemma AcceptsIff(h: Host)
    ensures Accepts(h) <==> WellFormed(h)
  {
  }

  /** No identity is reported twice with different contents. */
  ghost predicate Agreeing(hosts: seq<Host>) {
    forall i, j :: 0 <= i < j < |hosts| && hosts[i].endpointId == hosts[j].endpointId ==> hosts[i] == hosts[j]
  }

  /** The values of the map, in some order. */
  method Values(unique: map<string, Host>) returns (hosts: seq<Host>)
    requires forall e <- unique :: unique[e].endpointId == e
    ensures Distinct(hosts) && forall h :: h in hosts <==> h.endpointId in unique && unique[h.endpointId] == h
  {
    hosts := [];
    var rest := unique.Keys;
    while rest != {}
      invariant rest <= unique.Keys && Distinct(hosts)
      invariant forall h :: h in hosts <==> h.endpointId in unique.Keys - rest && unique[h.endpointId] == h
    {
      var e :| e in rest;
      assert forall k :: 0 <= k < |hosts| ==> hosts[k] in hosts && hosts[k].endpointId != e;
      hosts, rest := hosts + [unique[e]], rest - {e};
    }
  }

  /** A report is accepted exactly when every host is well formed and equal identities are equal hosts; what is
      passed on are its hosts, each once. */
  method ValidateHosts(hosts: seq<Host>) returns (r: Option<seq<Host>>)
    ensures r.Some? <==> (forall h <- hosts :: WellFormed(h)) && Agreeing(hosts)
    ensures r.Some? ==> Validated(r.value) && forall h :: h in r.value <==> h in hosts
  {
    var unique: map<string, Host> := map[];
    for n := 0 to |hosts|
      invariant forall k :: 0 <= k < n ==>
                  Accepts(hosts[k]) && WellFormed(hosts[k]) && hosts[k].endpointId in unique && unique[hosts[k].endpointId] == hosts[k]
      invariant forall e <- unique :: unique[e].endpointId == e && unique[e] in hosts[..n]
    {
      var host := hosts[n];
      var e := host.endpointId;
      AcceptsIff(host);
      if !Accepts(host) {
        return None;
      }
      if e in unique && unique[e] != host {
        Conflicting(hosts, n, unique[e]);
        return None;
      }
      unique := unique[e := host];
      assert hosts[..n + 1] == hosts[..n] + [host];
    }
    var values := Values(unique);
    assert hosts[..|hosts|] == hosts;
    r := Some(values);
  }

  lemma Conflicting(hosts: seq<Host>, n: nat, h: Host)
    requires n < |hosts| && h in hosts[..n] && h.endpointId == hosts[n].endpointId && h != hosts[n]
    ensures !Agreeing(hosts)
  {
    var k :| 0 <= k < n && hosts[k] == h;
  }
}
