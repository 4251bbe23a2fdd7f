/** The sigstore files of the discovery ISO: the docker transport of policy.json and the docker entries of
    registries.d, both built from the cluster's image policies and digest mirror sets. */
module SignaturePolicy {
  import opened Objects
  import opened MirrorMerge

  datatype Policy = Policy(keyData: string, scopes: seq<string>)

  datatype Mapping = Mapping(mirror: string, source: string)

  datatype Identity = MatchRepoDigestOrExact | RemapIdentity(prefix: string, signedPrefix: string)

  datatype Requirement = InsecureAcceptAnything | SigstoreSigned(keyData: string, identity: Identity)

  /** `attachments`: whether use-sigstore-attachments is set for the registry. */
  datatype Override = Override(transport: map<string, seq<Requirement>>, attachments: map<string, bool>)

  // ---------------------------------------------------------------- specification

  /** A scope of a policy together with the policy's key. */
  datatype Scope = Scope(name: string, keyData: string)

  predicate Effective(p: Policy) {
    p.keyData != "" && |p.scopes| > 0
  }

  function ScopesOf(p: Policy): seq<Scope> {
    seq(|p.scopes|, k requires 0 <= k < |p.scopes| => Scope(p.scopes[k], p.keyData))
  }

  function Scopes(policies: seq<Policy>): seq<Scope> {
    if |policies| == 0 then [] else
      var last := policies[|policies| - 1];
      Scopes(policies[..|policies| - 1]) + (if Effective(last) then ScopesOf(last) else [])
  }

  predicate Maps(raw: Raw, m: Mapping) {
    raw.Mirrors? && raw.source == m.source && m.mirror in raw.mirrors
  }

  ghost predicate Declares(sets: seq<seq<Raw>>, m: Mapping) {
    exists i, j :: 0 <= i < |sets| && 0 <= j < |sets[i]| && Maps(sets[i][j], m)
  }

  /** The keys a scope speaks for: its own name and every mirror of it. */
  predicate Covers(scope: Scope, mappings: seq<Mapping>, key: string) {
    key == scope.name || Mapping(key, scope.name) in mappings
  }

  ghost predicate Covered(scopes: seq<Scope>, mappings: seq<Mapping>, key: string) {
    exists i :: 0 <= i < |scopes| && Covers(scopes[i], mappings, key)
  }

  function RequirementOf(scope: Scope, mappings: seq<Mapping>, key: string): Requirement {
    SigstoreSigned(scope.keyData,
                   if Mapping(key, scope.name) in mappings then RemapIdentity(key, scope.name) else MatchRepoDigestOrExact)
  }

  /** The scope decides a key when it is the last one that covers it. */
  ghost predicate Decides(scopes: seq<Scope>, mappings: seq<Mapping>, key: string, i: nat) {
    && i < |scopes|
    && Covers(scopes[i], mappings, key)
    && forall j :: i < j < |scopes| ==> !Covers(scopes[j], mappings, key)
  }

  ghost predicate Decided(transport: map<string, seq<Requirement>>, scopes: seq<Scope>, mappings: seq<Mapping>, key: string)
    requires key in transport
  {
    exists i: nat :: Decides(scopes, mappings, key, i) && transport[key] == [RequirementOf(scopes[i], mappings, key)]
  }

  /** The transport before its default entry is added: the covered keys, each with the requirement of its last scope. */
  ghost predicate TransportOf(transport: map<string, seq<Requirement>>, scopes: seq<Scope>, mappings: seq<Mapping>) {
    && (forall key :: key in transport <==> Covered(scopes, mappings, key))
    && (forall key :: key in transport ==> Decided(transport, scopes, mappings, key))
  }

  ghost predicate AttachmentsOf(attachments: map<string, bool>, scopes: seq<Scope>, mappings: seq<Mapping>) {
    && (forall key :: key in attachments <==> Covered(scopes, mappings, key))
    && (forall key :: key in attachments ==> attachments[key])
  }

  // ---------------------------------------------------------------- reading the cluster's resources

  lemma ScopesAppend(policies: seq<Policy>, p: Policy)
    ensures Scopes(policies + [p]) == Scopes(policies) + (if Effective(p) then ScopesOf(p) else [])
  {
    assert (policies + [p])[..|policies|] == policies;
  }

  method EffectivePolicies(listed: seq<Policy>) returns (policies: seq<Policy>)
    ensures Scopes(policies) == Scopes(listed)
    ensures |policies| == 0 <==> forall k :: 0 <= k < |listed| ==> listed[k].keyData == "" || |listed[k].scopes| == 0
    ensures forall p :: p in policies <==> p in listed && p.keyData != "" && |p.scopes| > 0
    ensures forall k :: 0 <= k < |policies| ==> Effective(policies[k])
  {
    hide Scopes;
    policies := [];
    assert listed[..0] == [];
    for i := 0 to |listed|
      invariant Scopes(policies) == Scopes(listed[..i])
      invariant |policies| == 0 <==> forall k :: 0 <= k < i ==> listed[k].keyData == "" || |listed[k].scopes| == 0
      invariant forall p :: p in policies <==> p in listed[..i] && p.keyData != "" && |p.scopes| > 0
      invariant forall k :: 0 <= k < |policies| ==> Effective(policies[k])
    {
      assert listed[..i + 1] == listed[..i] + [listed[i]];
      ScopesAppend(listed[..i], listed[i]);
      if listed[i].keyData == "" || |listed[i].scopes| == 0 { continue; }
      ScopesAppend(policies, listed[i]);
      policies := policies + [listed[i]];
    }
    assert listed[..|listed|] == listed;
  }

  method AddMappings(known: seq<Mapping>, source: string, mirrors: seq<string>) returns (mappings: seq<Mapping>)
    ensures forall m :: m in mappings <==> m in known || (m.source == source && m.mirror in mirrors)
  {
    mappings := known;
    for i := 0 to |mirrors|
      invariant forall m :: m in mappings <==> m in known || (m.source == source && m.mirror in mirrors[..i])
    {
      mappings := mappings + [Mapping(mirrors[i], source)];
      assert mirrors[..i + 1] == mirrors[..i] + [mirrors[i]];
    }
    assert mirrors[..|mirrors|] == mirrors;
  }

  ghost predicate DeclaredBefore(entries: seq<Raw>, n: nat, m: Mapping) {
    exists j :: 0 <= j < n <= |entries| && Maps(entries[j], m)
  }

  method AddSetMappings(known: seq<Mapping>, entries: seq<Raw>) returns (mappings: seq<Mapping>)
    ensures forall m :: m in mappings <==> m in known || DeclaredBefore(entries, |entries|, m)
  {
    mappings := known;
    for i := 0 to |entries|
      invariant forall m :: m in mappings <==> m in known || DeclaredBefore(entries, i, m)
    {
      if entries[i].Mirrors? { mappings := AddMappings(mappings, entries[i].source, entries[i].mirrors); }
      forall m ensures DeclaredBefore(entries, i + 1, m) <==> DeclaredBefore(entries, i, m) || Maps(entries[i], m) {
        if DeclaredBefore(entries, i, m) {
          var j :| 0 <= j < i && Maps(entries[j], m);
        }
      }
    }
  }

  method MirrorMappings(sets: seq<seq<Raw>>) returns (mappings: seq<Mapping>)
    ensures forall m :: m in mappings <==> Declares(sets, m)
  {
    mappings := [];
    for i := 0 to |sets|
      invariant forall m :: m in mappings <==> exists k :: 0 <= k < i && DeclaredBefore(sets[k], |sets[k]|, m)
    {
      mappings := AddSetMappings(mappings, sets[i]);
    }
    forall m ensures Declares(sets, m) <==> exists k :: 0 <= k < |sets| && DeclaredBefore(sets[k], |sets[k]|, m) {
      if Declares(sets, m) {
        var i, j :| 0 <= i < |sets| && 0 <= j < |sets[i]| && Maps(sets[i][j], m);
        assert DeclaredBefore(sets[i], |sets[i]|, m);
      }
    }
  }

  /** The scopes are exactly those of the policies with a key, each with that key, in the order of the policies. */
  lemma {:induction false} ScopesMeaning(policies: seq<Policy>, scope: Scope)
    ensures scope in Scopes(policies) <==>
              exists k :: 0 <= k < |policies| && policies[k].keyData == scope.keyData && scope.keyData != ""
                          && scope.name in policies[k].scopes
  {
    if |policies| > 0 {
      var before, last := policies[..|policies| - 1], policies[|policies| - 1];
      ScopesMeaning(before, scope);
      if scope in Scopes(before) {
        var k :| 0 <= k < |before| && before[k].keyData == scope.keyData && scope.name in before[k].scopes;
        assert policies[k] == before[k];
      }
      if last.keyData == scope.keyData && scope.name in last.scopes && scope.keyData != "" {
        var i :| 0 <= i < |last.scopes| && last.scopes[i] == scope.name;
        assert ScopesOf(last)[i] == scope;
      }
      if k :| 0 <= k < |policies| && policies[k].keyData == scope.keyData && scope.keyData != "" && scope.name in policies[k].scopes {
        if k < |before| { assert before[k] == policies[k]; }
      }
    }
  }

  lemma {:induction false} ScopesInOrder(a: seq<Policy>, b: seq<Policy>)
    ensures Scopes(a + b) == Scopes(a) + Scopes(b)
    ensures forall p: Policy :: p.keyData != "" ==>
              |Scopes([p])| == |p.scopes|
              && forall i :: 0 <= i < |p.scopes| ==> Scopes([p])[i] == Scope(p.scopes[i], p.keyData)
  {
    forall p: Policy | p.keyData != ""
      ensures |Scopes([p])| == |p.scopes| && forall i :: 0 <= i < |p.scopes| ==> Scopes([p])[i] == Scope(p.scopes[i], p.keyData)
    {
      assert [p][..0] == [] && Scopes([]) == [];
    }
    if |b| == 0 {
      assert a + b == a;
    } else {
      ScopesInOrder(a, b[..|b| - 1]);
      assert (a + b)[..|a + b| - 1] == a + b[..|b| - 1];
    }
  }

  // ---------------------------------------------------------------- the two maps

  /** One pass of the scope loop of policy.json: the scope's own key, then its mirrors. */
  method AddScope(before: map<string, seq<Requirement>>, scope: string, keyData: string, mappings: seq<Mapping>)
    returns (transport: map<string, seq<Requirement>>)
    ensures forall key :: key in transport <==> key in before || Covers(Scope(scope, keyData), mappings, key)
    ensures forall key :: key in transport ==>
              transport[key] == if Covers(Scope(scope, keyData), mappings, key)
                                then [RequirementOf(Scope(scope, keyData), mappings, key)] else before[key]
  {
    transport := before[scope := [SigstoreSigned(keyData, MatchRepoDigestOrExact)]];
    for j := 0 to |mappings|
      invariant forall key :: key in transport <==> key in before || Covers(Scope(scope, keyData), mappings[..j], key)
      invariant forall key :: key in transport ==>
                  transport[key] == if Covers(Scope(scope, keyData), mappings[..j], key)
                                    then [RequirementOf(Scope(scope, keyData), mappings[..j], key)] else before[key]
    {
      assert mappings[..j + 1] == mappings[..j] + [mappings[j]];
      if mappings[j].source == scope {
        var mirror := mappings[j].mirror;
        transport := transport[mirror := [SigstoreSigned(keyData, RemapIdentity(mirror, scope))]];
      }
    }
    assert mappings[..|mappings|] == mappings;
  }

  method BuildTransport(policies: seq<Policy>, mappings: seq<Mapping>) returns (transport: map<string, seq<Requirement>>)
    requires forall k :: 0 <= k < |policies| ==> Effective(policies[k])
    ensures exists bare: map<string, seq<Requirement>> ::
              TransportOf(bare, Scopes(policies), mappings) && transport == bare["" := [InsecureAcceptAnything]]
  {
    hide Covers, RequirementOf, Decided, Covered, Effective;
    transport := map[];
    assert TransportOf(transport, [], mappings) by { NothingCovered(mappings); }
    for i := 0 to |policies|
      invariant TransportOf(transport, Scopes(policies[..i]), mappings)
    {
      var pol := policies[i];
      ghost var before := Scopes(policies[..i]);
      assert policies[..i + 1][..i] == policies[..i];
      assert before + ScopesOf(pol)[..0] == before;
      for j := 0 to |pol.scopes|
        invariant TransportOf(transport, before + ScopesOf(pol)[..j], mappings)
      {
        ghost var was := transport;
        transport := AddScope(transport, pol.scopes[j], pol.keyData, mappings);
        TransportExtended(was, transport, before + ScopesOf(pol)[..j], ScopesOf(pol)[j], mappings);
        assert before + ScopesOf(pol)[..j] + [ScopesOf(pol)[j]] == before + ScopesOf(pol)[..j + 1];
      }
      assert ScopesOf(pol)[..|pol.scopes|] == ScopesOf(pol);
    }
    assert policies[..|policies|] == policies;
    transport := transport["" := [InsecureAcceptAnything]];
  }

  method AddAttachments(before: map<string, bool>, scope: string, mappings: seq<Mapping>)
    returns (attachments: map<string, bool>)
    requires forall key :: key in before ==> before[key]
    ensures forall key :: key in attachments <==> key in before || key == scope || Mapping(key, scope) in mappings
    ensures forall key :: key in attachments ==> attachments[key]
  {
    attachments := before[scope := true];
    for j := 0 to |mappings|
      invariant forall key :: key in attachments <==> key in before || key == scope || Mapping(key, scope) in mappings[..j]
      invariant forall key :: key in attachments ==> attachments[key]
    {
      assert mappings[..j + 1] == mappings[..j] + [mappings[j]];
      if mappings[j].source == scope { attachments := attachments[mappings[j].mirror := true]; }
    }
    assert mappings[..|mappings|] == mappings;
  }

  method BuildAttachments(policies: seq<Policy>, mappings: seq<Mapping>) returns (attachments: map<string, bool>)
    requires forall k :: 0 <= k < |policies| ==> Effective(policies[k])
    ensures AttachmentsOf(attachments, Scopes(policies), mappings)
  {
    hide Covered, Effective;
    attachments := map[];
    NothingCovered(mappings);
    for i := 0 to |policies|
      invariant AttachmentsOf(attachments, Scopes(policies[..i]), mappings)
    {
      var pol := policies[i];
      ghost var before := Scopes(policies[..i]);
      assert policies[..i + 1][..i] == policies[..i];
      assert before + ScopesOf(pol)[..0] == before;
      for j := 0 to |pol.scopes|
        invariant AttachmentsOf(attachments, before + ScopesOf(pol)[..j], mappings)
      {
        attachments := AddAttachments(attachments, pol.scopes[j], mappings);
        CoveredExtended(before + ScopesOf(pol)[..j], ScopesOf(pol)[j], mappings);
        assert before + ScopesOf(pol)[..j] + [ScopesOf(pol)[j]] == before + ScopesOf(pol)[..j + 1];
      }
      assert ScopesOf(pol)[..|pol.scopes|] == ScopesOf(pol);
    }
    assert policies[..|policies|] == policies;
  }

  /** buildIgnitionConfigOverride: nothing without an effective policy, else both files. */
  method BuildOverride(listed: seq<Policy>, sets: seq<seq<Raw>>) returns (r: Option<Override>, ghost mappings: seq<Mapping>)
    ensures r.None? <==> forall k :: 0 <= k < |listed| ==> listed[k].keyData == "" || |listed[k].scopes| == 0
    ensures forall m :: m in mappings <==> Declares(sets, m)
    ensures r.Some? ==>
              && AttachmentsOf(r.value.attachments, Scopes(listed), mappings)
              && exists bare: map<string, seq<Requirement>> ::
                   && TransportOf(bare, Scopes(listed), mappings)
                   && r.value.transport == bare["" := [InsecureAcceptAnything]]
  {
    var policies := EffectivePolicies(listed);
    var found := MirrorMappings(sets);
    mappings := found;
    if |policies| == 0 { return None, mappings; }
    var transport := BuildTransport(policies, found);
    var attachments := BuildAttachments(policies, found);
    r := Some(Override(transport, attachments));
  }

  // ---------------------------------------------------------------- one more scope

  lemma NothingCovered(mappings: seq<Mapping>)
    ensures forall key :: !Covered([], mappings, key)
  {
  }

  lemma CoveredExtended(scopes: seq<Scope>, scope: Scope, mappings: seq<Mapping>)
    ensures forall key :: Covered(scopes + [scope], mappings, key) <==> Covered(scopes, mappings, key) || Covers(scope, mappings, key)
  {
    hide Covers;
    var next := scopes + [scope];
    forall key
      ensures Covered(next, mappings, key) <==> Covered(scopes, mappings, key) || Covers(scope, mappings, key)
    {
      if Covered(scopes, mappings, key) {
        var i :| 0 <= i < |scopes| && Covers(scopes[i], mappings, key);
        assert next[i] == scopes[i];
      }
      if Covers(scope, mappings, key) { assert next[|scopes|] == scope; }
    }
  }

  lemma TransportExtended(was: map<string, seq<Requirement>>, now: map<string, seq<Requirement>>, scopes: seq<Scope>,
                          scope: Scope, mappings: seq<Mapping>)
    requires TransportOf(was, scopes, mappings)
    requires forall key :: key in now <==> key in was || Covers(scope, mappings, key)
    requires forall key :: key in now ==>
               now[key] == if Covers(scope, mappings, key) then [RequirementOf(scope, mappings, key)] else was[key]
    ensures TransportOf(now, scopes + [scope], mappings)
  {
    hide Covers, RequirementOf, Covered;
    CoveredExtended(scopes, scope, mappings);
    var next := scopes + [scope];
    forall key | key in now ensures Decided(now, next, mappings, key) {
      if Covers(scope, mappings, key) {
        assert next[|scopes|] == scope;
        assert Decides(next, mappings, key, |scopes|);
      } else {
        assert Decided(was, scopes, mappings, key);
        var i: nat :| Decides(scopes, mappings, key, i) && was[key] == [RequirementOf(scopes[i], mappings, key)];
        assert Decides(next, mappings, key, i);
      }
    }
  }

  // ---------------------------------------------------------------- what the files say

  /** The two files agree: policy.json speaks for the registries of registries.d and the default, whatever the inputs. */
  lemma FilesAgree(bare: map<string, seq<Requirement>>, attachments: map<string, bool>, scopes: seq<Scope>,
                   mappings: seq<Mapping>)
    requires TransportOf(bare, scopes, mappings) && AttachmentsOf(attachments, scopes, mappings)
    ensures bare["" := [InsecureAcceptAnything]].Keys == attachments.Keys + {""}
  {
    hide Covered, Decided;
  }

  ghost predicate MatchesPolicy(r: Requirement, scopes: seq<Scope>, key: string) {
    exists i :: 0 <= i < |scopes| && scopes[i].name == key && r == SigstoreSigned(scopes[i].keyData, MatchRepoDigestOrExact)
  }

  ghost predicate RemapsToPolicy(r: Requirement, scopes: seq<Scope>, mappings: seq<Mapping>, key: string) {
    exists i :: 0 <= i < |scopes| && Mapping(key, scopes[i].name) in mappings
                && r == SigstoreSigned(scopes[i].keyData, RemapIdentity(key, scopes[i].name))
  }

  /** Every key but the default one demands exactly one signature: of the policy with that scope, or of a policy whose
      scope has the key as a mirror, read as that scope. */
  lemma OneSignatureEach(bare: map<string, seq<Requirement>>, scopes: seq<Scope>, mappings: seq<Mapping>, key: string)
    requires TransportOf(bare, scopes, mappings)
    requires key in bare["" := [InsecureAcceptAnything]] && key != ""
    ensures var rs := bare["" := [InsecureAcceptAnything]][key];
            |rs| == 1 && (MatchesPolicy(rs[0], scopes, key) || RemapsToPolicy(rs[0], scopes, mappings, key))
  {
    hide Covered;
    assert Decided(bare, scopes, mappings, key);
  }

  /** No scope or mirror of an effective policy is left to the accepting default, except the empty name. */
  lemma NothingCoveredIsOpen(bare: map<string, seq<Requirement>>, scopes: seq<Scope>, mappings: seq<Mapping>, key: string)
    requires TransportOf(bare, scopes, mappings) && Covered(scopes, mappings, key)
    ensures var transport := bare["" := [InsecureAcceptAnything]];
            key in transport && (InsecureAcceptAnything in transport[key] <==> key == "")
  {
    hide Covered;
    assert Decided(bare, scopes, mappings, key);
  }

  ghost predicate NoRivals(scopes: seq<Scope>, mappings: seq<Mapping>, key: string) {
    forall i, j :: 0 <= i < |scopes| && 0 <= j < |scopes| && Covers(scopes[i], mappings, key) && Covers(scopes[j], mappings, key)
                   ==> scopes[i] == scopes[j]
  }

  ghost predicate SameMembers<T(!new)>(a: seq<T>, b: seq<T>) {
    forall x :: x in a <==> x in b
  }

  /** The overwrite order only matters for a key that two different scopes cover. */
  lemma OrderIrrelevant(a: map<string, seq<Requirement>>, b: map<string, seq<Requirement>>, scopes: seq<Scope>,
                        permuted: seq<Scope>, mappings: seq<Mapping>, shuffled: seq<Mapping>, key: string)
    requires TransportOf(a, scopes, mappings) && TransportOf(b, permuted, shuffled)
    requires SameMembers(scopes, permuted) && SameMembers(mappings, shuffled)
    ensures key in a <==> key in b
    ensures NoRivals(scopes, mappings, key) && key in a ==> a[key] == b[key]
  {
    hide Decided;
    SameCover(scopes, permuted, mappings, shuffled, key);
    SameCover(permuted, scopes, shuffled, mappings, key);
    if key in a && NoRivals(scopes, mappings, key) {
      var i := DeciderOf(a, scopes, mappings, key);
      var j := DeciderOf(b, permuted, shuffled, key);
      assert permuted[j] in scopes;
    }
  }

  lemma DeciderOf(t: map<string, seq<Requirement>>, scopes: seq<Scope>, mappings: seq<Mapping>, key: string) returns (i: nat)
    requires TransportOf(t, scopes, mappings) && key in t
    ensures i < |scopes| && Covers(scopes[i], mappings, key) && t[key] == [RequirementOf(scopes[i], mappings, key)]
  {
    hide Covered, Covers, RequirementOf;
    assert Decided(t, scopes, mappings, key);
    i :| Decides(scopes, mappings, key, i) && t[key] == [RequirementOf(scopes[i], mappings, key)];
  }

  lemma SameCover(scopes: seq<Scope>, permuted: seq<Scope>, mappings: seq<Mapping>, shuffled: seq<Mapping>, key: string)
    requires SameMembers(scopes, permuted) && SameMembers(mappings, shuffled)
    ensures Covered(scopes, mappings, key) ==> Covered(permuted, shuffled, key)
  {
    if Covered(scopes, mappings, key) {
      var i :| 0 <= i < |scopes| && Covers(scopes[i], mappings, key);
      assert scopes[i] in permuted;
    }
  }
}
