/** The registry table of the assisted installer: IDMS and ITMS entries merged per source, in order of appearance. */
module MirrorMerge {
  import opened Text

  /** One element of a mirror set's entry list, as the API returns it; missing strings read as "". */
  datatype Raw = Malformed | Mirrors(source: string, mirrors: seq<string>)

  /** A usable entry; `digest` when it comes from an ImageDigestMirrorSet. */
  datatype Declaration = Declaration(source: string, mirrors: seq<string>, digest: bool)

  datatype Entry = Entry(source: string, mirrors: seq<string>, digestOnly: bool)

  /** isInstallSafe: a path is required, and more than one component of it on Docker Hub. */
  predicate InstallSafe(source: string) {
    var slash := IndexOf(source, '/');
    && slash + 1 < |source|
    && !((source[..slash] == "docker.io" || source[..slash] == "index.docker.io") && '/' !in source[slash + 1..])
  }

  predicate Usable(raw: Raw) {
    raw.Mirrors? && raw.source != "" && InstallSafe(raw.source)
  }

  // ---------------------------------------------------------------- specification

  function Declared(entries: seq<Raw>, digest: bool): seq<Declaration> {
    if |entries| == 0 then [] else
      var rest := Declared(entries[..|entries| - 1], digest);
      var last := entries[|entries| - 1];
      if Usable(last) then rest + [Declaration(last.source, last.mirrors, digest)] else rest
  }

  function AllDeclared(sets: seq<seq<Raw>>, digest: bool): seq<Declaration> {
    if |sets| == 0 then [] else AllDeclared(sets[..|sets| - 1], digest) + Declared(sets[|sets| - 1], digest)
  }

  /** Every value once, in order of first appearance. */
  function Extend(known: seq<string>, more: seq<string>): seq<string> {
    if |more| == 0 then known else
      var rest := Extend(known, more[..|more| - 1]);
      if more[|more| - 1] in rest then rest else rest + [more[|more| - 1]]
  }

  function Sources(log: seq<Declaration>): seq<string> {
    if |log| == 0 then [] else Extend(Sources(log[..|log| - 1]), [log[|log| - 1].source])
  }

  /** The mirrors collected for a source, before the managed registry is added. */
  function Collected(log: seq<Declaration>, source: string): seq<string> {
    if |log| == 0 then [] else
      var before := log[..|log| - 1];
      var last := log[|log| - 1];
      if last.source != source then Collected(before, source)
      else if source in Sources(before) then Extend(Collected(before, source), last.mirrors)
      else last.mirrors
  }

  function FirstDigest(log: seq<Declaration>, source: string): bool {
    if |log| == 0 then false else
      var before := log[..|log| - 1];
      if source in Sources(before) then FirstDigest(before, source)
      else log[|log| - 1].source == source && log[|log| - 1].digest
  }

  /** The mirror of a source in the managed registry: its host, with the path of the source. */
  function ManagedMirror(host: string, source: string): string {
    var slash := IndexOf(source, '/');
    if slash < |source| then host + "/" + source[slash + 1..] else host
  }

  function Host(registry: string): string {
    var slash := IndexOf(registry, '/');
    if 0 < slash < |registry| then registry[..slash] else registry
  }

  function EntryOf(log: seq<Declaration>, host: string, source: string): Entry {
    Entry(source, Extend(Collected(log, source), [ManagedMirror(host, source)]), FirstDigest(log, source))
  }

  function Merged(log: seq<Declaration>, host: string): seq<Entry> {
    seq(|Sources(log)|, k requires 0 <= k < |Sources(log)| => EntryOf(log, host, Sources(log)[k]))
  }

  /** Appends the mirrors that are not there yet. */
  method AppendUnseen(existing: seq<string>, mirrors: seq<string>) returns (known: seq<string>)
    ensures known == Extend(existing, mirrors)
  {
    known := existing;
    for i := 0 to |mirrors|
      invariant known == Extend(existing, mirrors[..i])
    {
      var found := false;
      for j := 0 to |known|
        invariant found <==> mirrors[i] in known[..j]
      {
        if known[j] == mirrors[i] { found := true; }
      }
      assert known[..|known|] == known;
      assert mirrors[..i + 1][..i] == mirrors[..i];
      if !found { known := known + [mirrors[i]]; }
    }
    assert mirrors[..|mirrors|] == mirrors;
  }

  // ---------------------------------------------------------------- the table

  class MirrorTable {
    var seen: map<string, Entry>
    var orderedSources: seq<string>
    ghost var log: seq<Declaration>

    ghost predicate Valid()
      reads this
    {
      && orderedSources == Sources(log)
      && (forall s :: s in seen <==> s in orderedSources)
      && (forall s :: s in seen ==> seen[s] == Entry(s, Collected(log, s), FirstDigest(log, s)))
    }

    constructor ()
      ensures Valid() && log == []
    {
      seen, orderedSources, log := map[], [], [];
    }

    method AddEntry(source: string, mirrors: seq<string>, digestOnly: bool)
      requires Valid()
      modifies this
      ensures Valid() && log == old(log) + [Declaration(source, mirrors, digestOnly)]
    {
      ghost var declaration := Declaration(source, mirrors, digestOnly);
      AppendedLog(log, declaration);
      if source in seen {
        var e := seen[source];
        var known := AppendUnseen(e.mirrors, mirrors);
        seen := seen[source := e.(mirrors := known)];
      } else {
        seen := seen[source := Entry(source, mirrors, digestOnly)];
        orderedSources := orderedSources + [source];
      }
      log := log + [declaration];
    }

    method AddSet(entries: seq<Raw>, digestOnly: bool)
      requires Valid()
      modifies this
      ensures Valid() && log == old(log) + Declared(entries, digestOnly)
    {
      for i := 0 to |entries|
        invariant Valid() && log == old(log) + Declared(entries[..i], digestOnly)
      {
        assert entries[..i + 1][..i] == entries[..i];
        if entries[i].Mirrors? && entries[i].source != "" && InstallSafe(entries[i].source) {
          AddEntry(entries[i].source, entries[i].mirrors, digestOnly);
        }
      }
      assert entries[..|entries|] == entries;
    }

    method AddSets(sets: seq<seq<Raw>>, digestOnly: bool)
      requires Valid()
      modifies this
      ensures Valid() && log == old(log) + AllDeclared(sets, digestOnly)
    {
      for i := 0 to |sets|
        invariant Valid() && log == old(log) + AllDeclared(sets[..i], digestOnly)
      {
        assert sets[..i + 1][..i] == sets[..i];
        AddSet(sets[i], digestOnly);
      }
      assert sets[..|sets|] == sets;
    }

    /** Adds the managed registry to every source and lists the entries in order. */
    method Finish(host: string) returns (entries: seq<Entry>)
      requires Valid()
      modifies this`seen
      ensures entries == Merged(log, host)
    {
      hide Extend, Collected, FirstDigest, Sources, ManagedMirror;
      SourcesDistinct(log);
      entries := [];
      for i := 0 to |orderedSources|
        invariant forall s :: s in seen <==> s in orderedSources
        invariant forall k :: i <= k < |orderedSources| ==> seen[orderedSources[k]] == old(seen)[orderedSources[k]]
        invariant |entries| == i && forall k :: 0 <= k < i ==> entries[k] == EntryOf(log, host, orderedSources[k])
      {
        var source := orderedSources[i];
        var e := seen[source];
        var mirrors := AppendUnseen(e.mirrors, [ManagedMirror(host, source)]);
        e := e.(mirrors := mirrors);
        seen := seen[source := e];
        entries := entries + [e];
      }
    }
  }

  /** ensureAssistedInstallerMirrorConfig, from the listed mirror sets to the table it prints. */
  method MergeMirrors(idms: seq<seq<Raw>>, itms: seq<seq<Raw>>, mirrorRegistry: string) returns (entries: seq<Entry>)
    ensures entries == Merged(AllDeclared(idms, true) + AllDeclared(itms, false), Host(mirrorRegistry))
  {
    var table := new MirrorTable();
    table.AddSets(idms, true);
    table.AddSets(itms, false);
    entries := table.Finish(Host(mirrorRegistry));
    assert [] + AllDeclared(idms, true) == AllDeclared(idms, true);
  }

  // ---------------------------------------------------------------- about the specification

  lemma AppendedLog(log: seq<Declaration>, d: Declaration)
    ensures var next := log + [d];
            && Sources(next) == (if d.source in Sources(log) then Sources(log) else Sources(log) + [d.source])
            && (forall s :: s != d.source ==> Collected(next, s) == Collected(log, s))
            && Collected(next, d.source) == (if d.source in Sources(log) then Extend(Collected(log, d.source), d.mirrors) else d.mirrors)
            && (forall s :: s in Sources(log) ==> FirstDigest(next, s) == FirstDigest(log, s))
            && (d.source !in Sources(log) ==> FirstDigest(next, d.source) == d.digest)
  {
    var next := log + [d];
    assert next[..|next| - 1] == log;
    ExtendOne(Sources(log), d.source);
  }

  lemma ExtendOne(known: seq<string>, value: string)
    ensures Extend(known, [value]) == if value in known then known else known + [value]
  {
    assert [value][..0] == [];
  }

  ghost predicate Distinct(s: seq<string>) {
    forall j, k :: 0 <= j < k < |s| ==> s[j] != s[k]
  }

  lemma {:induction false} SourcesDistinct(log: seq<Declaration>)
    ensures Distinct(Sources(log))
  {
    if |log| > 0 {
      SourcesDistinct(log[..|log| - 1]);
      ExtendOne(Sources(log[..|log| - 1]), log[|log| - 1].source);
    }
  }

  /** Extending keeps what was there, adds each new value once, and adds nothing else. */
  lemma {:induction false} ExtendMeaning(known: seq<string>, more: seq<string>)
    ensures known <= Extend(known, more)
    ensures forall x :: x in Extend(known, more) <==> x in known || x in more
    ensures forall k :: |known| <= k < |Extend(known, more)| ==> Extend(known, more)[k] !in Extend(known, more)[..k]
  {
    if |more| > 0 {
      var before, last := more[..|more| - 1], more[|more| - 1];
      ExtendMeaning(known, before);
      assert more == before + [last];
    }
  }

  // ---------------------------------------------------------------- what the merged table is

  /** The position of the first occurrence, |s| when there is none. */
  function FirstIn(s: seq<string>, x: string): (i: nat)
    ensures i <= |s| && (i < |s| ==> s[i] == x) && forall k :: 0 <= k < i ==> s[k] != x
  {
    if |s| == 0 then 0 else
      var i := FirstIn(s[..|s| - 1], x);
      if i < |s| - 1 then i else if s[|s| - 1] == x then |s| - 1 else |s|
  }

  function FirstAt(log: seq<Declaration>, source: string): (i: nat)
    ensures i <= |log| && (i < |log| ==> log[i].source == source) && forall k :: 0 <= k < i ==> log[k].source != source
  {
    if |log| == 0 then 0 else
      var i := FirstAt(log[..|log| - 1], source);
      if i < |log| - 1 then i else if log[|log| - 1].source == source then |log| - 1 else |log|
  }

  /** The mirrors declared for a source from position `from` on, one declaration after the other. */
  function Later(log: seq<Declaration>, source: string, from: nat): seq<string> {
    if |log| <= from then [] else
      Later(log[..|log| - 1], source, from) + (if log[|log| - 1].source == source then log[|log| - 1].mirrors else [])
  }

  lemma {:induction false} SourcesMeaning(log: seq<Declaration>, source: string)
    ensures source in Sources(log) <==> FirstAt(log, source) < |log|
  {
    if |log| > 0 {
      SourcesMeaning(log[..|log| - 1], source);
      ExtendOne(Sources(log[..|log| - 1]), log[|log| - 1].source);
    }
  }

  /** Sources are listed in order of first appearance. */
  lemma {:induction false} SourcesOrdered(log: seq<Declaration>, j: nat, k: nat)
    requires j < k < |Sources(log)|
    ensures FirstAt(log, Sources(log)[j]) < FirstAt(log, Sources(log)[k])
  {
    var before := log[..|log| - 1];
    ExtendOne(Sources(before), log[|log| - 1].source);
    SourcesMeaning(before, Sources(log)[j]);
    SourcesMeaning(before, Sources(log)[k]);
    if k < |Sources(before)| { SourcesOrdered(before, j, k); }
  }

  lemma {:induction false} ExtendTwice(known: seq<string>, more: seq<string>, evenMore: seq<string>)
    ensures Extend(Extend(known, more), evenMore) == Extend(known, more + evenMore)
  {
    if |evenMore| == 0 {
      assert more + evenMore == more;
    } else {
      var before := evenMore[..|evenMore| - 1];
      ExtendTwice(known, more, before);
      assert (more + evenMore)[..|more + evenMore| - 1] == more + before;
    }
  }

  /** The new values come in the order of their first appearance. */
  lemma {:induction false} ExtendOrdered(known: seq<string>, more: seq<string>, j: nat, k: nat)
    requires |known| <= j < k < |Extend(known, more)|
    ensures FirstIn(more, Extend(known, more)[j]) < FirstIn(more, Extend(known, more)[k])
  {
    var before, last := more[..|more| - 1], more[|more| - 1];
    var rest, all := Extend(known, before), Extend(known, more);
    assert more == before + [last];
    NewValueOccurs(known, before, j);
    FirstInLonger(before, last, all[j]);
    if k < |rest| {
      ExtendOrdered(known, before, j, k);
      NewValueOccurs(known, before, k);
      FirstInLonger(before, last, all[k]);
    } else {
      assert all == rest + [last] && last !in rest;
      LateValue(known, before, last);
    }
  }

  lemma FirstInLonger(before: seq<string>, last: string, m: string)
    requires FirstIn(before, m) < |before|
    ensures FirstIn(before + [last], m) == FirstIn(before, m)
  {
  }

  lemma LateValue(known: seq<string>, before: seq<string>, last: string)
    requires last !in Extend(known, before)
    ensures FirstIn(before + [last], last) == |before|
  {
    ExtendMeaning(known, before);
    assert last !in before;
  }

  lemma NewValueOccurs(known: seq<string>, more: seq<string>, k: nat)
    requires |known| <= k < |Extend(known, more)|
    ensures FirstIn(more, Extend(known, more)[k]) < |more|
  {
    ExtendMeaning(known, more);
    var all := Extend(known, more);
    assert forall i :: 0 <= i < |known| ==> all[..k][i] == known[i];
    var i :| 0 <= i < |more| && more[i] == all[k];
  }

  /** A source's mirrors: its first declaration verbatim, then what later declarations add. */
  lemma {:induction false} CollectedMeaning(log: seq<Declaration>, source: string)
    requires source in Sources(log)
    ensures FirstAt(log, source) < |log|
    ensures var i := FirstAt(log, source);
            Collected(log, source) == Extend(log[i].mirrors, Later(log, source, i + 1))
  {
    hide Sources, Extend;
    SourcesMeaning(log, source);
    var before, last := log[..|log| - 1], log[|log| - 1];
    SourcesMeaning(before, source);
    var i := FirstAt(log, source);
    if source in Sources(before) {
      CollectedMeaning(before, source);
      ExtendTwice(log[i].mirrors, Later(before, source, i + 1), last.mirrors);
      assert Later(before, source, i + 1) + [] == Later(before, source, i + 1);
    } else {
      ExtendNothing(log[i].mirrors);
    }
  }

  lemma ExtendNothing(known: seq<string>)
    ensures Extend(known, []) == known
  {
  }

  lemma {:induction false} FirstDigestIs(log: seq<Declaration>, source: string)
    requires source in Sources(log)
    ensures FirstAt(log, source) < |log| && FirstDigest(log, source) == log[FirstAt(log, source)].digest
  {
    SourcesMeaning(log, source);
    SourcesMeaning(log[..|log| - 1], source);
    if source in Sources(log[..|log| - 1]) { FirstDigestIs(log[..|log| - 1], source); }
  }

  lemma {:induction false} DeclaredKind(sets: seq<seq<Raw>>, digest: bool)
    ensures forall d :: d in AllDeclared(sets, digest) ==> d.digest == digest && d.source != "" && InstallSafe(d.source)
  {
    if |sets| > 0 {
      DeclaredKind(sets[..|sets| - 1], digest);
      DeclaredKindOfSet(sets[|sets| - 1], digest);
    }
  }

  lemma {:induction false} DeclaredKindOfSet(entries: seq<Raw>, digest: bool)
    ensures forall d :: d in Declared(entries, digest) ==> d.digest == digest && d.source != "" && InstallSafe(d.source)
  {
    if |entries| > 0 { DeclaredKindOfSet(entries[..|entries| - 1], digest); }
  }

  ghost predicate Declares(log: seq<Declaration>, source: string) {
    exists k :: 0 <= k < |log| && log[k].source == source
  }

  ghost predicate DeclaresDigest(log: seq<Declaration>, source: string) {
    exists k :: 0 <= k < |log| && log[k].source == source && log[k].digest
  }

  ghost predicate Lists(table: seq<Entry>, source: string) {
    exists k :: 0 <= k < |table| && table[k].source == source
  }

  /** The table lists each install-safe source once, in order of first appearance; its mirrors are the first declaration
      verbatim, then each further mirror once in order of appearance, with the managed one last unless it is there; and
      it is digest-only exactly when some ImageDigestMirrorSet declares the source. */
  lemma MergedMeaning(idms: seq<seq<Raw>>, itms: seq<seq<Raw>>, registry: string)
    ensures var log := AllDeclared(idms, true) + AllDeclared(itms, false);
            var table := Merged(log, Host(registry));
            && (forall s :: Lists(table, s) <==> Declares(log, s))
            && (forall j, k :: 0 <= j < k < |table| ==> FirstAt(log, table[j].source) < FirstAt(log, table[k].source))
            && (forall k :: 0 <= k < |table| ==>
                  && InstallSafe(table[k].source)
                  && MirrorsRight(log, table[k], ManagedMirror(Host(registry), table[k].source))
                  && (table[k].digestOnly <==> DeclaresDigest(AllDeclared(idms, true), table[k].source)))
  {
    hide Extend, Collected, FirstDigest, AllDeclared, MirrorsRight, Lists, Declares, DeclaresDigest, FirstAt, InstallSafe;
    var log := AllDeclared(idms, true) + AllDeclared(itms, false);
    var table := Merged(log, Host(registry));
    forall s ensures Lists(table, s) <==> Declares(log, s) {
      TableSources(log, Host(registry), s);
    }
    forall j, k | 0 <= j < k < |table| ensures FirstAt(log, table[j].source) < FirstAt(log, table[k].source) {
      SourcesOrdered(log, j, k);
    }
    forall k | 0 <= k < |table|
      ensures InstallSafe(table[k].source)
      ensures MirrorsRight(log, table[k], ManagedMirror(Host(registry), table[k].source))
      ensures table[k].digestOnly <==> DeclaresDigest(AllDeclared(idms, true), table[k].source)
    {
      EntryMeaning(log, Host(registry), k);
      SourceSafe(idms, itms, table[k].source);
      DeclaredKind(idms, true);
      DeclaredKind(itms, false);
      DigestMeaning(AllDeclared(idms, true), AllDeclared(itms, false), table[k].source);
    }
  }

  lemma SourceSafe(idms: seq<seq<Raw>>, itms: seq<seq<Raw>>, source: string)
    requires source in Sources(AllDeclared(idms, true) + AllDeclared(itms, false))
    ensures InstallSafe(source)
  {
    hide InstallSafe;
    var log := AllDeclared(idms, true) + AllDeclared(itms, false);
    DeclaredKind(idms, true);
    DeclaredKind(itms, false);
    SourcesMeaning(log, source);
    assert log[FirstAt(log, source)] in log;
  }

  ghost predicate MirrorsRight(log: seq<Declaration>, e: Entry, managed: string) {
    var i := FirstAt(log, e.source);
    && i < |log| && log[i].mirrors <= e.mirrors
    && (forall x :: x in e.mirrors <==> x == managed || exists j :: 0 <= j < |log| && log[j].source == e.source && x in log[j].mirrors)
    && (forall k :: |log[i].mirrors| <= k < |e.mirrors| ==> e.mirrors[k] !in e.mirrors[..k])
    && (forall j, k :: |log[i].mirrors| <= j < k < |e.mirrors| ==>
          FirstIn(Later(log, e.source, i + 1) + [managed], e.mirrors[j]) < FirstIn(Later(log, e.source, i + 1) + [managed], e.mirrors[k]))
  }

  lemma TableSources(log: seq<Declaration>, host: string, s: string)
    ensures Lists(Merged(log, host), s) <==> Declares(log, s)
  {
    SourcesMeaning(log, s);
    var table := Merged(log, host);
    if s in Sources(log) {
      var k :| 0 <= k < |Sources(log)| && Sources(log)[k] == s;
      assert table[k].source == s;
      assert log[FirstAt(log, s)].source == s;
    }
  }

  lemma {:induction false} LaterMeaning(log: seq<Declaration>, source: string, from: nat, x: string)
    ensures x in Later(log, source, from) <==> exists j :: from <= j < |log| && log[j].source == source && x in log[j].mirrors
  {
    if |log| > from {
      var before := log[..|log| - 1];
      LaterMeaning(before, source, from, x);
      if x in Later(before, source, from) {
        var j :| from <= j < |before| && before[j].source == source && x in before[j].mirrors;
        assert log[j].source == source;
      }
      if j :| from <= j < |log| && log[j].source == source && x in log[j].mirrors {
        if j < |before| { assert before[j].source == source; }
      }
    }
  }

  lemma EntryMeaning(log: seq<Declaration>, host: string, k: nat)
    requires k < |Merged(log, host)|
    ensures MirrorsRight(log, Merged(log, host)[k], ManagedMirror(host, Merged(log, host)[k].source))
  {
    var e := Merged(log, host)[k];
    var managed := ManagedMirror(host, e.source);
    CollectedMeaning(log, e.source);
    var i := FirstAt(log, e.source);
    var later := Later(log, e.source, i + 1);
    ExtendTwice(log[i].mirrors, later, [managed]);
    assert e.mirrors == Extend(log[i].mirrors, later + [managed]);
    ExtendMeaning(log[i].mirrors, later + [managed]);
    forall x
      ensures x in e.mirrors <==> x == managed || exists j :: 0 <= j < |log| && log[j].source == e.source && x in log[j].mirrors
    {
      LaterMeaning(log, e.source, i + 1, x);
    }
    forall a, b | |log[i].mirrors| <= a < b < |e.mirrors|
      ensures FirstIn(later + [managed], e.mirrors[a]) < FirstIn(later + [managed], e.mirrors[b])
    {
      ExtendOrdered(log[i].mirrors, later + [managed], a, b);
    }
  }

  lemma DigestMeaning(digests: seq<Declaration>, others: seq<Declaration>, source: string)
    requires forall d :: d in digests ==> d.digest
    requires forall d :: d in others ==> !d.digest
    requires source in Sources(digests + others)
    ensures FirstDigest(digests + others, source) <==> DeclaresDigest(digests, source)
  {
    var log := digests + others;
    FirstDigestIs(log, source);
    var i := FirstAt(log, source);
    if i < |digests| { assert digests[i] in digests; } else { assert log[i] in others; }
    if DeclaresDigest(digests, source) {
      var j :| 0 <= j < |digests| && digests[j].source == source && digests[j].digest;
      assert log[j] == digests[j];
    }
  }

  // ---------------------------------------------------------------- sources and registries, by their parts

  lemma FirstSlash(host: string, path: string)
    requires '/' !in host
    ensures IndexOf(host + "/" + path, '/') == |host|
    ensures (host + "/" + path)[..|host|] == host && (host + "/" + path)[|host| + 1..] == path
  {
    IndexIs(host + "/" + path, '/', |host|);
  }

  /** A source is safe exactly when it has a path, of more than one component on Docker Hub. */
  lemma SafeByParts(host: string, path: string)
    requires '/' !in host
    ensures InstallSafe(host + "/" + path) <==>
              path != "" && !((host == "docker.io" || host == "index.docker.io") && '/' !in path)
    ensures !InstallSafe(host)
  {
    FirstSlash(host, path);
  }

  /** Two sources of Docker Hub. */
  lemma SafeOnDockerHub()
    ensures !InstallSafe("docker.io/x") && InstallSafe("docker.io/x/y")
  {
    hide InstallSafe;
    var hub := "docker.io";
    assert '/' !in hub && "x" != "";
    SafeByParts(hub, "x");
    SafeByParts(hub, "x/y");
    assert hub + "/" + "x" == "docker.io/x" && hub + "/" + "x/y" == "docker.io/x/y";
    assert "x/y"[1] == '/' && '/' !in "x";
  }

  /** The name of a registry up to its first slash. */
  ghost predicate RegistryHost(registry: string, host: string) {
    host != "" && '/' !in host && (registry == host || exists path :: registry == host + "/" + path)
  }

  lemma HostIs(registry: string, host: string)
    requires RegistryHost(registry, host)
    ensures Host(registry) == host
  {
    if registry != host {
      var path :| registry == host + "/" + path;
      FirstSlash(host, path);
    }
  }

  /** Every source of the table has, as a mirror, the managed registry's host with the path of the source; it is the last
      mirror unless some set declares it for the source. */
  lemma ManagedByParts(idms: seq<seq<Raw>>, itms: seq<seq<Raw>>, registry: string, r: string, k: nat, host: string, path: string)
    requires RegistryHost(registry, r) && '/' !in host
    requires var table := Merged(AllDeclared(idms, true) + AllDeclared(itms, false), Host(registry));
             k < |table| && table[k].source == host + "/" + path
    ensures var log := AllDeclared(idms, true) + AllDeclared(itms, false);
            var mirrors := Merged(log, Host(registry))[k].mirrors;
            && |mirrors| > 0 && r + "/" + path in mirrors
            && (|| mirrors[|mirrors| - 1] == r + "/" + path
                || exists j :: 0 <= j < |log| && log[j].source == host + "/" + path && r + "/" + path in log[j].mirrors)
  {
    hide Extend, Collected, AllDeclared, FirstDigest;
    var log := AllDeclared(idms, true) + AllDeclared(itms, false);
    var source, m := host + "/" + path, r + "/" + path;
    HostIs(registry, r);
    FirstSlash(host, path);
    assert ManagedMirror(r, source) == m;
    ExtendOne(Collected(log, source), m);
    if m in Collected(log, source) { CollectedMirrors(log, source, m); }
  }

  lemma {:induction false} CollectedMirrors(log: seq<Declaration>, source: string, m: string)
    requires m in Collected(log, source)
    ensures exists j :: 0 <= j < |log| && log[j].source == source && m in log[j].mirrors
  {
    var before, last := log[..|log| - 1], log[|log| - 1];
    if last.source == source && m in last.mirrors {
      assert log[|log| - 1].source == source;
    } else {
      if last.source == source { ExtendMeaning(Collected(before, source), last.mirrors); }
      CollectedMirrors(before, source, m);
      var j :| 0 <= j < |before| && before[j].source == source && m in before[j].mirrors;
      assert log[j] == before[j];
    }
  }

  // ---------------------------------------------------------------- what is declared

  /** `at` picks the usable entries of a set, in order: those with a source that has a path, of more than one component
      on Docker Hub. */
  ghost predicate Picks(entries: seq<Raw>, declared: seq<Declaration>, digest: bool, at: seq<nat>) {
    && |at| == |declared|
    && (forall j, k :: 0 <= j < k < |at| ==> at[j] < at[k])
    && (forall j: nat :: UsableAt(entries, j) <==> j in at)
    && (forall k :: 0 <= k < |at| ==> DeclaredFrom(entries, declared[k], digest, at[k]))
  }

  predicate UsableAt(entries: seq<Raw>, j: nat) {
    j < |entries| && entries[j].Mirrors? && entries[j].source != "" && InstallSafe(entries[j].source)
  }

  predicate DeclaredFrom(entries: seq<Raw>, d: Declaration, digest: bool, j: nat) {
    j < |entries| && entries[j].Mirrors? && d == Declaration(entries[j].source, entries[j].mirrors, digest)
  }

  /** A set declares exactly its usable entries, in order, with all their mirrors. */
  lemma {:induction false} DeclaredExactly(entries: seq<Raw>, digest: bool) returns (at: seq<nat>)
    ensures Picks(entries, Declared(entries, digest), digest, at)
  {
    hide UsableAt, DeclaredFrom;
    at := [];
    if |entries| > 0 {
      at := DeclaredExactly(entries[..|entries| - 1], digest);
      at := OneMorePick(entries, digest, at);
    } else {
      NothingUsable();
    }
  }

  lemma NothingUsable()
    ensures forall j: nat :: !UsableAt([], j)
  {
  }

  lemma OneMorePick(entries: seq<Raw>, digest: bool, was: seq<nat>) returns (at: seq<nat>)
    requires |entries| > 0 && Picks(entries[..|entries| - 1], Declared(entries[..|entries| - 1], digest), digest, was)
    ensures Picks(entries, Declared(entries, digest), digest, at)
  {
    hide UsableAt, DeclaredFrom, Declared;
    var n, before := |entries| - 1, entries[..|entries| - 1];
    var first, all := Declared(before, digest), Declared(entries, digest);
    OneMoreEntry(entries, digest);
    at := if UsableAt(entries, n) then was + [n] else was;
    forall k | 0 <= k < |was| ensures DeclaredFrom(entries, first[k], digest, was[k]) && was[k] < n {
      EntryStays(entries, first[k], digest, was[k]);
    }
    assert forall k :: 0 <= k < |was| ==> all[k] == first[k];
  }

  lemma OneMoreEntry(entries: seq<Raw>, digest: bool)
    requires |entries| > 0
    ensures var n, before := |entries| - 1, entries[..|entries| - 1];
            && (forall j: nat :: UsableAt(entries, j) <==> UsableAt(before, j) || (j == n && UsableAt(entries, n)))
            && (if UsableAt(entries, n)
                then |Declared(entries, digest)| == |Declared(before, digest)| + 1
                     && Declared(entries, digest)[..|Declared(before, digest)|] == Declared(before, digest)
                     && DeclaredFrom(entries, Declared(entries, digest)[|Declared(before, digest)|], digest, n)
                else Declared(entries, digest) == Declared(before, digest))
  {
  }

  lemma EntryStays(entries: seq<Raw>, d: Declaration, digest: bool, j: nat)
    requires |entries| > 0 && DeclaredFrom(entries[..|entries| - 1], d, digest, j)
    ensures DeclaredFrom(entries, d, digest, j) && j < |entries| - 1
  {
  }

  /** The sets are declared one after the other. */
  lemma {:induction false} DeclaredInOrder(a: seq<seq<Raw>>, b: seq<seq<Raw>>, digest: bool)
    ensures AllDeclared(a + b, digest) == AllDeclared(a, digest) + AllDeclared(b, digest)
    ensures forall entries :: AllDeclared([entries], digest) == Declared(entries, digest)
  {
    forall entries ensures AllDeclared([entries], digest) == Declared(entries, digest) {
      assert [entries][..0] == [] && AllDeclared([], digest) == [];
    }
    if |b| == 0 {
      assert a + b == a;
    } else {
      DeclaredInOrder(a, b[..|b| - 1], digest);
      assert (a + b)[..|a + b| - 1] == a + b[..|b| - 1];
    }
  }
}
