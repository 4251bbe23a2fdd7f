/** The four stages that enrich an ImageSetConfiguration before it is stored, on parsed configurations. */
module Enrichment {
  import opened Objects
  import opened Text

  /** A YAML scalar where a string belongs: missing, a string, or a bare number or boolean. Reading it into a typed
      structure turns the last into the string `text`; reading it into a generic map does not. */
  datatype Scalar = Missing | Str(text: string) | Bare(text: string)

  datatype Channel = Channel(name: Scalar, minVersion: Scalar, maxVersion: Scalar, full: bool)

  datatype Package = Package(name: string, defaultChannel: string, channels: seq<Channel>)

  datatype Operator = Operator(catalog: string, packages: seq<Package>)

  /** `architectures`: None when the key is absent, which an empty list is not. */
  datatype Target = Target(channels: seq<Channel>, graph: bool, architectures: Option<seq<string>>)

  /** `others`: the fields that the typed structure does not have. */
  datatype ImageSet = ImageSet(platform: Option<Target>, operators: seq<Operator>, images: seq<string>,
                               helm: Option<string>, others: seq<string>)

  const COMMUNITY_CATALOG := "registry.redhat.io/redhat/community-operator-index"
  const PACKAGE_NAME := "mirror-operator"
  const NEW_PACKAGE := Package(PACKAGE_NAME, "", [])

  // ---------------------------------------------------------------- the typed pass

  function Typed(s: Scalar): string {
    if s.Missing? then "" else s.text
  }

  /** A field that is written even when empty. */
  function Always(s: Scalar): Scalar {
    Str(Typed(s))
  }

  function OmitEmpty(s: Scalar): Scalar {
    if Typed(s) == "" then Missing else Str(Typed(s))
  }

  function RetypeChannel(c: Channel): Channel {
    Channel(Always(c.name), OmitEmpty(c.minVersion), OmitEmpty(c.maxVersion), c.full)
  }

  function RetypeChannels(cs: seq<Channel>): seq<Channel> {
    seq(|cs|, k requires 0 <= k < |cs| => RetypeChannel(cs[k]))
  }

  function RetypePackage(p: Package): Package {
    p.(channels := RetypeChannels(p.channels))
  }

  function RetypeOperator(op: Operator): Operator {
    op.(packages := seq(|op.packages|, k requires 0 <= k < |op.packages| => RetypePackage(op.packages[k])))
  }

  function RetypeTarget(p: Target): Target {
    Target(RetypeChannels(p.channels), p.graph, if p.architectures == Some([]) then None else p.architectures)
  }

  /** Reading the text into ImageSetConfiguration and writing it back. */
  function Retype(c: ImageSet): ImageSet {
    ImageSet(if c.platform.None? then None else Some(RetypeTarget(c.platform.value)),
             seq(|c.operators|, k requires 0 <= k < |c.operators| => RetypeOperator(c.operators[k])),
             c.images, c.helm, [])
  }

  // ---------------------------------------------------------------- the version

  function BeforeSecondDot(s: string): string {
    var first := IndexOf(s, '.');
    if first == |s| then s else s[..first + 1] + s[first + 1..][..IndexOf(s[first + 1..], '.')]
  }

  /** extractOCPVersion */
  function Version(c: ImageSet): string {
    if c.platform.None? || |c.platform.value.channels| == 0 then "latest"
    else
      var channel := c.platform.value.channels[0];
      if channel.minVersion.Str? && channel.minVersion.text != "" then BeforeSecondDot(channel.minVersion.text)
      else if channel.name.Str? then channel.name.text[AfterLast(channel.name.text, '-')..]
      else "latest"
  }

  predicate Digit(c: char) {
    '0' <= c <= '9'
  }

  function Natural(digits: string): Option<nat> {
    if |digits| == 0 then Some(0)
    else
      var before := Natural(digits[..|digits| - 1]);
      var last := digits[|digits| - 1];
      if before.None? || !Digit(last) then None else Some(10 * before.value + (last as int - '0' as int))
  }

  /** strconv.Atoi on 64 bits. */
  function Atoi(s: string): Option<int> {
    var signed := |s| > 0 && (s[0] == '+' || s[0] == '-');
    var digits := if signed then s[1..] else s;
    var n := Natural(digits);
    if digits == "" || n.None? then None
    else if signed && s[0] == '-' then (if n.value <= 0x8000_0000_0000_0000 then Some(0 - n.value as int) else None)
    else if n.value < 0x8000_0000_0000_0000 then Some(n.value) else None
  }

  /** The version is MAJOR.MINOR with a minor that has the operator in the community catalog. */
  predicate Supported(version: string) {
    var dot := IndexOf(version, '.');
    dot < |version| && Atoi(version[dot + 1..]).Some? && Atoi(version[dot + 1..]).value >= 18
  }

  // ---------------------------------------------------------------- the stages, specified

  function CatalogRef(c: ImageSet, override: string): Option<string> {
    if override != "" then Some(override)
    else if Supported(Version(c)) then Some(COMMUNITY_CATALOG + ":v" + Version(c))
    else None
  }

  predicate Matches(op: Operator, ref: string, override: string) {
    op.catalog == ref || (override == "" && HasPrefix(op.catalog, COMMUNITY_CATALOG))
  }

  predicate HasPackage(op: Operator) {
    exists k :: 0 <= k < |op.packages| && op.packages[k].name == PACKAGE_NAME
  }

  function FirstMatch(ops: seq<Operator>, ref: string, override: string): (i: nat)
    ensures i <= |ops| && (i < |ops| ==> Matches(ops[i], ref, override))
    ensures forall k :: 0 <= k < i ==> !Matches(ops[k], ref, override)
  {
    if |ops| == 0 then 0 else
      var i := FirstMatch(ops[..|ops| - 1], ref, override);
      if i < |ops| - 1 then i else if Matches(ops[|ops| - 1], ref, override) then |ops| - 1 else |ops|
  }

  predicate Provided(ops: seq<Operator>, ref: string, override: string) {
    var i := FirstMatch(ops, ref, override);
    i < |ops| && HasPackage(ops[i])
  }

  function WithPackage(ops: seq<Operator>, ref: string, override: string): seq<Operator> {
    var i := FirstMatch(ops, ref, override);
    if i < |ops| then ops[i := ops[i].(packages := ops[i].packages + [NEW_PACKAGE])]
    else ops + [Operator(ref, [NEW_PACKAGE])]
  }

  /** Whether the first stage changes anything. */
  predicate Injects(c: ImageSet, override: string) {
    var ref := CatalogRef(c, override);
    ref.Some? && !Provided(Retype(c).operators, ref.value, override)
  }

  function WithOperator(c: ImageSet, override: string): ImageSet {
    if !Injects(c, override) then c
    else Retype(c).(operators := WithPackage(Retype(c).operators, CatalogRef(c, override).value, override))
  }

  function Missed(images: seq<string>, wanted: seq<string>): seq<string> {
    if |wanted| == 0 then [] else
      var before, last := Missed(images, wanted[..|wanted| - 1]), wanted[|wanted| - 1];
      if last != "" && last !in images then before + [last] else before
  }

  function WithArchitect(c: ImageSet, architect: Option<seq<string>>): ImageSet {
    if architect.None? then c else Retype(c).(images := c.images + Missed(c.images, architect.value))
  }

  function ServerPrefix(registry: string): string {
    registry + "/rhcos-server:"
  }

  predicate HasServer(images: seq<string>, registry: string) {
    exists k :: 0 <= k < |images| && HasPrefix(images[k], ServerPrefix(registry))
  }

  function WithServer(c: ImageSet, registry: string): ImageSet {
    if registry == "" then c
    else if HasServer(c.images, registry) then Retype(c)
    else Retype(c).(images := c.images + [ServerPrefix(registry) + Version(c)])
  }

  function WithArchitecture(c: ImageSet): ImageSet {
    if c.platform.None? || c.platform.value.architectures.Some? then c
    else c.(platform := Some(c.platform.value.(architectures := Some(["amd64"]))))
  }

  /** `architect`: the images of the stage, None when it does not apply; `registry`: "" when the third does not. */
  datatype Settings = Settings(override: string, architect: Option<seq<string>>, registry: string)

  function Enriched(c: ImageSet, s: Settings): ImageSet {
    WithArchitecture(WithServer(WithArchitect(WithOperator(c, s.override), s.architect), s.registry))
  }

  // ---------------------------------------------------------------- the stages, as they run

  method InjectMirrorOperator(c: ImageSet, override: string) returns (r: ImageSet)
    ensures r == WithOperator(c, override)
  {
    hide Retype;
    var config := Retype(c);
    var ref := CatalogRef(c, override);
    if ref.None? { return c; }
    for i := 0 to |config.operators|
      invariant forall k :: 0 <= k < i ==> !Matches(config.operators[k], ref.value, override)
    {
      var op := config.operators[i];
      if !(op.catalog == ref.value || (override == "" && HasPrefix(op.catalog, COMMUNITY_CATALOG))) { continue; }
      assert FirstMatch(config.operators, ref.value, override) == i;
      for j := 0 to |op.packages|
        invariant forall k :: 0 <= k < j ==> op.packages[k].name != PACKAGE_NAME
      {
        if op.packages[j].name == PACKAGE_NAME { return c; }
      }
      return config.(operators := config.operators[i := op.(packages := op.packages + [NEW_PACKAGE])]);
    }
    r := config.(operators := config.operators + [Operator(ref.value, [NEW_PACKAGE])]);
  }

  method InjectArchitectImages(c: ImageSet, architect: Option<seq<string>>) returns (r: ImageSet)
    ensures r == WithArchitect(c, architect)
  {
    if architect.None? { return c; }
    var config, images := Retype(c), architect.value;
    var existing: set<string> := {};
    for i := 0 to |config.images|
      invariant forall x :: x in existing <==> x in config.images[..i]
    {
      existing := existing + {config.images[i]};
    }
    assert config.images[..|config.images|] == config.images;
    for i := 0 to |images|
      invariant config == Retype(c).(images := c.images + Missed(c.images, images[..i]))
    {
      assert images[..i + 1][..i] == images[..i];
      if images[i] != "" && images[i] !in existing { config := config.(images := config.images + [images[i]]); }
    }
    assert images[..|images|] == images;
    r := config;
  }

  method InjectRHCOSServerImage(c: ImageSet, registry: string) returns (r: ImageSet)
    ensures r == WithServer(c, registry)
  {
    if registry == "" { return c; }
    var config := Retype(c);
    var found := false;
    for i := 0 to |config.images|
      invariant found <==> HasServer(config.images[..i], registry)
    {
      if HasPrefix(config.images[i], ServerPrefix(registry)) {
        assert config.images[..i + 1][i] == config.images[i];
        found := true;
        break;
      }
    }
    assert config.images[..|config.images|] == config.images;
    r := if found then config else config.(images := config.images + [ServerPrefix(registry) + Version(c)]);
  }

  /** The enrichment of ensureConfigMap. */
  method Enrich(c: ImageSet, s: Settings) returns (r: ImageSet)
    ensures r == Enriched(c, s)
  {
    r := InjectMirrorOperator(c, s.override);
    r := InjectArchitectImages(r, s.architect);
    r := InjectRHCOSServerImage(r, s.registry);
    r := WithArchitecture(r);
  }

  // ---------------------------------------------------------------- the typed pass once more

  lemma RetypeTwice(c: ImageSet)
    ensures Retype(Retype(c)) == Retype(c)
  {
    var t := Retype(c);
    forall k | 0 <= k < |c.operators| ensures Retype(t).operators[k] == t.operators[k] {
      OperatorTwice(c.operators[k]);
    }
    assert Retype(t).operators == t.operators;
    if c.platform.Some? { ChannelsTwice(c.platform.value.channels); }
  }

  lemma ChannelsTwice(cs: seq<Channel>)
    ensures RetypeChannels(RetypeChannels(cs)) == RetypeChannels(cs)
  {
  }

  lemma OperatorTwice(op: Operator)
    ensures RetypeOperator(RetypeOperator(op)) == RetypeOperator(op)
  {
    var t := RetypeOperator(op);
    forall k | 0 <= k < |op.packages| ensures RetypePackage(t.packages[k]) == t.packages[k] {
      ChannelsTwice(op.packages[k].channels);
    }
    assert RetypeOperator(t).packages == t.packages;
  }

  /** A configuration the typed pass leaves alone. */
  predicate Settled(c: ImageSet) {
    Retype(c) == c
  }

  predicate TypedPass(c: ImageSet, s: Settings) {
    Injects(c, s.override) || s.architect.Some? || s.registry != ""
  }

  // ---------------------------------------------------------------- the stages one by one

  lemma {:induction false} MissedMeaning(images: seq<string>, wanted: seq<string>)
    ensures forall x :: x in Missed(images, wanted) <==> x in wanted && x != "" && x !in images
  {
    if |wanted| > 0 {
      MissedMeaning(images, wanted[..|wanted| - 1]);
      assert wanted == wanted[..|wanted| - 1] + [wanted[|wanted| - 1]];
    }
  }

  lemma {:induction false} NoneMissed(images: seq<string>, wanted: seq<string>)
    requires forall x :: x in wanted && x != "" ==> x in images
    ensures Missed(images, wanted) == []
  {
    if |wanted| > 0 { NoneMissed(images, wanted[..|wanted| - 1]); }
  }

  lemma {:induction false} FirstMatchIs(ops: seq<Operator>, ref: string, override: string, i: nat)
    requires i <= |ops| && (i < |ops| ==> Matches(ops[i], ref, override))
    requires forall k :: 0 <= k < i ==> !Matches(ops[k], ref, override)
    ensures FirstMatch(ops, ref, override) == i
  {
  }

  lemma PackageProvided(ops: seq<Operator>, ref: string, override: string)
    ensures var r := WithPackage(ops, ref, override);
            Provided(r, ref, override) && FirstMatch(r, ref, override) == FirstMatch(ops, ref, override)
  {
    var i := FirstMatch(ops, ref, override);
    var r := WithPackage(ops, ref, override);
    FirstMatchIs(r, ref, override, i);
    assert r[i].packages[|r[i].packages| - 1].name == PACKAGE_NAME;
  }

  /** With the default catalog any community catalog matches, whatever version it is looked up under. */
  lemma ReferenceIrrelevant(ops: seq<Operator>, ref: string, other: string)
    requires HasPrefix(ref, COMMUNITY_CATALOG) && HasPrefix(other, COMMUNITY_CATALOG)
    ensures Provided(ops, ref, "") == Provided(ops, other, "")
  {
    forall op ensures Matches(op, ref, "") == Matches(op, other, "") {
    }
    FirstMatchIs(ops, other, "", FirstMatch(ops, ref, ""));
  }

  lemma PrefixOfSum(a: string, b: string, c: string)
    ensures HasPrefix(a + b + c, a)
  {
  }

  lemma DefaultReference(version: string)
    ensures HasPrefix(COMMUNITY_CATALOG + ":v" + version, COMMUNITY_CATALOG)
  {
    PrefixOfSum(COMMUNITY_CATALOG, ":v", version);
  }

  // ---------------------------------------------------------------- what enriching keeps and adds

  predicate SameChannel(a: Channel, b: Channel) {
    Typed(a.name) == Typed(b.name) && Typed(a.minVersion) == Typed(b.minVersion) && Typed(a.maxVersion) == Typed(b.maxVersion)
    && a.full == b.full
  }

  predicate SameChannels(a: seq<Channel>, b: seq<Channel>) {
    |a| == |b| && forall k :: 0 <= k < |a| ==> SameChannel(a[k], b[k])
  }

  predicate SamePackage(a: Package, b: Package) {
    a.name == b.name && a.defaultChannel == b.defaultChannel && SameChannels(a.channels, b.channels)
  }

  /** The operator with its packages in order, followed by `extra`. */
  predicate Extended(a: Operator, b: Operator, extra: seq<Package>) {
    && a.catalog == b.catalog && |b.packages| == |a.packages| + |extra|
    && (forall k :: 0 <= k < |a.packages| ==> SamePackage(a.packages[k], b.packages[k]))
    && b.packages[|a.packages|..] == extra
  }

  /** All operators in order; the one at `at`, if any, has gained the package. */
  predicate OperatorsKept(a: seq<Operator>, b: seq<Operator>, at: nat) {
    |a| <= |b| && forall k :: 0 <= k < |a| ==> Extended(a[k], b[k], if k == at then [NEW_PACKAGE] else [])
  }

  lemma RetypeKeeps(c: ImageSet)
    ensures OperatorsKept(c.operators, Retype(c).operators, |c.operators|)
    ensures c.platform.Some? ==> SameChannels(c.platform.value.channels, RetypeChannels(c.platform.value.channels))
  {
  }

  /** The operators after enriching: those of the user in order, and at most one change, which is the new package at the
      end of the first matching operator or a new operator with that package alone. */
  lemma OperatorsAfter(c: ImageSet, s: Settings)
    ensures var after := Enriched(c, s).operators;
            if !Injects(c, s.override) then
              OperatorsKept(c.operators, after, |c.operators|) && |after| == |c.operators|
            else
              var ref := CatalogRef(c, s.override).value;
              var at := FirstMatch(Retype(c).operators, ref, s.override);
              && OperatorsKept(c.operators, after, at)
              && (if at < |c.operators| then |after| == |c.operators|
                  else after[|c.operators|..] == [Operator(ref, [NEW_PACKAGE])])
  {
    hide FirstMatch, Matches, CatalogRef, Provided, Missed, HasServer, Version;
    RetypeKeeps(c);
    var c1 := WithOperator(c, s.override);
    OperatorsOnly(c1, s);
    if Injects(c, s.override) {
      var ref := CatalogRef(c, s.override).value;
      InjectedKept(c.operators, Retype(c).operators, ref, s.override);
      RetypeAfterInjection(c, s.override);
    }
  }

  /** The later stages leave the operators to the typed pass. */
  lemma OperatorsOnly(c: ImageSet, s: Settings)
    ensures var after := WithArchitecture(WithServer(WithArchitect(c, s.architect), s.registry));
            after.operators == if s.architect.Some? || s.registry != "" then Retype(c).operators else c.operators
  {
    RetypeTwice(c);
  }

  lemma InjectedKept(a: seq<Operator>, b: seq<Operator>, ref: string, override: string)
    requires OperatorsKept(a, b, |a|) && |a| == |b|
    ensures var at := FirstMatch(b, ref, override);
            && OperatorsKept(a, WithPackage(b, ref, override), at)
            && (if at < |b| then |WithPackage(b, ref, override)| == |b|
                else WithPackage(b, ref, override)[|b|..] == [Operator(ref, [NEW_PACKAGE])])
  {
    hide Matches, SamePackage;
    var at := FirstMatch(b, ref, override);
    var r := WithPackage(b, ref, override);
    if at < |b| {
      assert r[at].packages[|a[at].packages|..] == [NEW_PACKAGE];
    }
  }

  /** What the first stage writes is settled. */
  lemma RetypeAfterInjection(c: ImageSet, override: string)
    requires Injects(c, override)
    ensures Settled(WithOperator(c, override))
  {
    hide FirstMatch, Matches, CatalogRef, Provided, Injects;
    var t, r := Retype(c), WithOperator(c, override);
    RetypeTwice(c);
    assert RetypePackage(NEW_PACKAGE) == NEW_PACKAGE;
    forall k | 0 <= k < |r.operators| ensures RetypeOperator(r.operators[k]) == r.operators[k] {
      if k < |t.operators| && r.operators[k] == t.operators[k] {
        assert Retype(t).operators[k] == t.operators[k];
      } else if k < |t.operators| {
        assert Retype(t).operators[k] == t.operators[k];
        assert RetypeOperator(r.operators[k]).packages == r.operators[k].packages;
      } else {
        assert RetypeOperator(r.operators[k]).packages == r.operators[k].packages;
      }
    }
    assert Retype(r).operators == r.operators;
  }

  /** The images: those of the user first and in order, then the architect images that were missing and at most one
      server image; afterwards all of them are there. */
  lemma ImagesAfter(c: ImageSet, s: Settings)
    ensures var after := Enriched(c, s).images;
            var wanted := if s.architect.None? then [] else Missed(c.images, s.architect.value);
            && c.images + wanted <= after
            && |after| <= |c.images + wanted| + 1
            && (|after| > |c.images + wanted| ==> s.registry != "" && HasPrefix(after[|after| - 1], ServerPrefix(s.registry)))
            && (s.architect.Some? ==> forall x :: x in s.architect.value && x != "" ==> x in after)
            && (s.registry != "" ==> HasServer(after, s.registry))
  {
    hide RetypeOperator, RetypeTarget, Version, CatalogRef, WithPackage, Injects, Missed;
    if s.architect.Some? { MissedMeaning(c.images, s.architect.value); }
    var c2 := WithArchitect(WithOperator(c, s.override), s.architect);
    ImagesOfFirst(c, s.override);
    var after := WithServer(c2, s.registry).images;
    if s.registry != "" && !HasServer(c2.images, s.registry) {
      assert HasPrefix(after[|after| - 1], ServerPrefix(s.registry));
    }
  }

  lemma ImagesOfFirst(c: ImageSet, override: string)
    ensures WithOperator(c, override).images == c.images && WithOperator(c, override).helm == c.helm
  {
  }

  /** Where the package must be, it is: with an override in a matching catalog, else in a community catalog. */
  lemma PackagePresent(c: ImageSet, s: Settings)
    requires s.override != "" || Supported(Version(c))
    ensures exists k :: 0 <= k < |Enriched(c, s).operators| && HasPackage(Enriched(c, s).operators[k])
              && (if s.override != "" then Enriched(c, s).operators[k].catalog == s.override
                  else HasPrefix(Enriched(c, s).operators[k].catalog, COMMUNITY_CATALOG))
  {
    hide Version, Supported, Missed;
    var ref := CatalogRef(c, s.override).value;
    if s.override == "" { DefaultReference(Version(c)); }
    hide HasPrefix, Enriched, HasPackage;
    ProvidedAfter(c, s);
  }

  lemma ProvidedAfter(c: ImageSet, s: Settings)
    requires CatalogRef(c, s.override).Some?
    ensures Provided(Enriched(c, s).operators, CatalogRef(c, s.override).value, s.override)
  {
    hide Version, Missed, HasPackage, FirstMatch, CatalogRef;
    var c1 := WithOperator(c, s.override);
    OperatorsOnly(c1, s);
    var ref := CatalogRef(c, s.override).value;
    if Injects(c, s.override) {
      PackageProvided(Retype(c).operators, ref, s.override);
      RetypeAfterInjection(c, s.override);
    } else {
      ProvidedRetyped(c.operators, Retype(c).operators, ref, s.override);
    }
  }

  lemma ProvidedRetyped(a: seq<Operator>, b: seq<Operator>, ref: string, override: string)
    requires |a| == |b| && forall k :: 0 <= k < |a| ==> b[k] == RetypeOperator(a[k])
    ensures Provided(a, ref, override) <==> Provided(b, ref, override)
  {
    FirstMatchIs(b, ref, override, FirstMatch(a, ref, override));
    var i := FirstMatch(a, ref, override);
    if i < |a| {
      if HasPackage(a[i]) {
        var k :| 0 <= k < |a[i].packages| && a[i].packages[k].name == PACKAGE_NAME;
        assert b[i].packages[k].name == PACKAGE_NAME;
      }
    }
  }

  // ---------------------------------------------------------------- enriching twice

  /** The version as it reads once every scalar is a string. */
  function TypedVersion(c: ImageSet): string {
    if c.platform.None? || |c.platform.value.channels| == 0 then "latest"
    else
      var channel := c.platform.value.channels[0];
      if Typed(channel.minVersion) != "" then BeforeSecondDot(Typed(channel.minVersion))
      else Typed(channel.name)[AfterLast(Typed(channel.name), '-')..]
  }

  /** A check of the input alone. The default catalog is wanted, a later stage rewrites the configuration, and the version
      of the first channel is supported only when its bare numbers are read as strings; the first community catalog, if
      any, lacks the package. After one pass the first stage finds a version that it did not find before. */
  predicate VersionSurfaces(c: ImageSet, s: Settings) {
    && s.override == "" && (s.architect.Some? || s.registry != "")
    && !Supported(Version(c)) && Supported(TypedVersion(c))
    && !Provided(c.operators, COMMUNITY_CATALOG, "")
  }

  /** In terms of the first stage: it changes nothing at first, but would after a typed pass. */
  lemma SurfacesMeaning(c: ImageSet, s: Settings)
    ensures VersionSurfaces(c, s) <==>
              (s.architect.Some? || s.registry != "") && !Injects(c, s.override) && Injects(Retype(c), s.override)
  {
    hide HasPackage, FirstMatch, Matches, AfterLast, BeforeSecondDot, Supported, RetypeOperator, HasPrefix;
    RetypeTwice(c);
    TypedVersionRetyped(c);
    if s.override == "" {
      var ref := COMMUNITY_CATALOG + ":v" + TypedVersion(c);
      DefaultReference(TypedVersion(c));
      DefaultReference(Version(c));
      assert HasPrefix(COMMUNITY_CATALOG, COMMUNITY_CATALOG) by { OwnPrefix(COMMUNITY_CATALOG); }
      ReferenceIrrelevant(Retype(c).operators, ref, COMMUNITY_CATALOG);
      ReferenceIrrelevant(Retype(c).operators, COMMUNITY_CATALOG + ":v" + Version(c), COMMUNITY_CATALOG);
      ProvidedRetyped(c.operators, Retype(c).operators, COMMUNITY_CATALOG, "");
    }
  }

  lemma OwnPrefix(s: string)
    ensures HasPrefix(s, s)
  {
  }

  lemma TypedVersionRetyped(c: ImageSet)
    ensures Version(Retype(c)) == TypedVersion(c)
  {
    hide BeforeSecondDot, AfterLast, RetypeOperator;
  }

  lemma SettledAfter(c: ImageSet, s: Settings)
    requires TypedPass(c, s)
    ensures Settled(Enriched(c, s))
  {
    hide FirstMatch, Matches, CatalogRef, Provided, Injects, WithPackage, HasServer, Missed, Version, RetypeOperator;
    var c1 := WithOperator(c, s.override);
    var c3 := WithServer(WithArchitect(c1, s.architect), s.registry);
    RetypeTwice(c1);
    if Injects(c, s.override) { RetypeAfterInjection(c, s.override); }
    assert Settled(c3) by { hide WithOperator; SettledImages(c1, s); }
    if c3.platform.Some? && c3.platform.value.architectures.None? {
      assert RetypeTarget(Enriched(c, s).platform.value) == Enriched(c, s).platform.value;
    }
  }

  lemma SettledImages(c: ImageSet, s: Settings)
    requires Settled(c) || s.architect.Some? || s.registry != ""
    ensures Settled(WithServer(WithArchitect(c, s.architect), s.registry))
  {
    hide HasServer, Missed, Version, RetypeOperator, RetypeTarget;
    RetypeTwice(c);
  }

  /** Once everything wanted is there, the later stages leave a settled configuration alone. */
  lemma LaterStagesIdle(c: ImageSet, s: Settings)
    requires Settled(c) || (s.architect.None? && s.registry == "")
    requires s.architect.Some? ==> forall x :: x in s.architect.value && x != "" ==> x in c.images
    requires s.registry != "" ==> HasServer(c.images, s.registry)
    requires c.platform.Some? ==> c.platform.value.architectures.Some?
    ensures WithArchitecture(WithServer(WithArchitect(c, s.architect), s.registry)) == c
  {
    hide HasServer, RetypeOperator, RetypeTarget;
    assert c.images + [] == c.images;
    if s.architect.Some? { NoneMissed(c.images, s.architect.value); }
  }

  /** The first three stages change the platform by the typed pass only. */
  lemma PlatformAfter(c: ImageSet, s: Settings)
    ensures var r := WithServer(WithArchitect(WithOperator(c, s.override), s.architect), s.registry);
            && r.platform == (if TypedPass(c, s) then Retype(c).platform else c.platform)
            && r.helm == c.helm
  {
    hide Injects, WithPackage, HasServer, RetypeOperator, RetypeTarget, Version, CatalogRef;
    var c1 := WithOperator(c, s.override);
    RetypeTwice(c);
    assert c1.platform == if Injects(c, s.override) then Retype(c).platform else c.platform;
    assert Retype(c1).platform == Retype(c).platform;
  }

  lemma ArchitectureAfter(c: ImageSet, s: Settings)
    ensures var e := Enriched(c, s);
            && (e.platform.Some? <==> c.platform.Some?)
            && (e.platform.Some? ==>
                  && e.platform.value.architectures.Some?
                  && SameChannels(c.platform.value.channels, e.platform.value.channels)
                  && e.platform.value.graph == c.platform.value.graph)
            && e.helm == c.helm
  {
    hide WithOperator, WithArchitect, WithServer, TypedPass;
    PlatformAfter(c, s);
    RetypeKeeps(c);
  }

  lemma VersionAfter(c: ImageSet, s: Settings)
    ensures Version(Enriched(c, s)) == Version(if TypedPass(c, s) then Retype(c) else c)
  {
    hide WithOperator, WithArchitect, WithServer, TypedPass, BeforeSecondDot, AfterLast;
    PlatformAfter(c, s);
  }

  /** Whether the first stage acts on its own output. */
  lemma InjectsAgain(c: ImageSet, s: Settings)
    ensures Injects(Enriched(c, s), s.override) <==> VersionSurfaces(c, s)
  {
    hide FirstMatch, Matches, Version, Supported, WithPackage, HasPackage, HasServer, Missed, HasPrefix, VersionSurfaces;
    SurfacesMeaning(c, s);
    var e, override := Enriched(c, s), s.override;
    VersionAfter(c, s);
    OperatorsOnly(WithOperator(c, override), s);
    RetypeTwice(c);
    if Injects(c, override) {
      SettledAfter(c, s);
      ProvidedAfter(c, s);
      DefaultReference(Version(c));
      DefaultReference(Version(e));
      if override == "" { ReferenceIrrelevant(e.operators, COMMUNITY_CATALOG + ":v" + Version(c), COMMUNITY_CATALOG + ":v" + Version(e)); }
    } else if TypedPass(c, s) {
      SettledAfter(c, s);
      assert e.operators == Retype(c).operators;
    } else {
      assert Retype(e).operators == Retype(c).operators;
    }
  }

  lemma OperatorsGrow(c: ImageSet, s: Settings)
    requires Injects(c, s.override)
    ensures Enriched(c, s) != c
  {
    hide FirstMatch, CatalogRef, Provided, HasPackage, SamePackage, Retype;
    OperatorsAfter(c, s);
    var at := FirstMatch(Retype(c).operators, CatalogRef(c, s.override).value, s.override);
    if at < |c.operators| {
      assert Extended(c.operators[at], Enriched(c, s).operators[at], [NEW_PACKAGE]);
    }
  }

  lemma EnrichedTwice(c: ImageSet, s: Settings)
    requires !Injects(c, s.override)
    ensures Enriched(c, s) == WithArchitecture(WithServer(WithArchitect(c, s.architect), s.registry))
  {
  }

  /** Enriching an enriched configuration changes nothing, exactly when no version surfaces in between. */
  lemma EnrichIdempotentExactly(c: ImageSet, s: Settings)
    ensures Enriched(Enriched(c, s), s) == Enriched(c, s) <==> !VersionSurfaces(c, s)
  {
    hide Retype, Version, WithPackage, HasServer, HasPackage, VersionSurfaces, Enriched;
    var e := Enriched(c, s);
    InjectsAgain(c, s);
    if Injects(e, s.override) {
      OperatorsGrow(e, s);
    } else {
      ImagesAfter(c, s);
      ArchitectureAfter(c, s);
      if s.architect.Some? || s.registry != "" {
        SettledAfter(c, s);
      }
      LaterStagesIdle(e, s);
      EnrichedTwice(e, s);
    }
  }

  /** Quoted versions never surface late: a configuration whose first channel is written with strings is enriched
      once and for all. */
  lemma QuotedVersionsIdempotent(c: ImageSet, s: Settings)
    requires c.platform.Some? && |c.platform.value.channels| > 0 ==>
               !c.platform.value.channels[0].minVersion.Bare? && !c.platform.value.channels[0].name.Bare?
    ensures Enriched(Enriched(c, s), s) == Enriched(c, s)
  {
    hide Enriched, WithPackage, HasPackage, FirstMatch, Matches, AfterLast, BeforeSecondDot, Atoi, RetypeOperator;
    EnrichIdempotentExactly(c, s);
    RetypeTwice(c);
    NoVersion();
    assert Version(Retype(c)) == Version(c) || (Version(c) == "latest" && Version(Retype(c)) == "");
  }

  lemma NoVersion()
    ensures !Supported("latest") && !Supported("") && AfterLast("", '-') == 0
  {
  }

  const BARE_EXAMPLE := ImageSet(Some(Target([Channel(Missing, Bare("4.18"), Missing, false)], false, None)), [], [], None, [])

  /** A bare number does: the operator is missing after the first pass and added by the second. */
  lemma BareVersionSurfaces(images: seq<string>)
    ensures var s := Settings("", Some(images), "");
            Enriched(Enriched(BARE_EXAMPLE, s), s) != Enriched(BARE_EXAMPLE, s)
  {
    hide Enriched, Retype, Version, Supported, BeforeSecondDot, WithPackage, HasPackage;
    EnrichIdempotentExactly(BARE_EXAMPLE, Settings("", Some(images), ""));
    NoVersion();
    VersionOf418();
    ExampleVersions();
  }

  lemma ExampleVersions()
    ensures Version(BARE_EXAMPLE) == "latest" && Version(Retype(BARE_EXAMPLE)) == BeforeSecondDot("4.18")
    ensures Retype(BARE_EXAMPLE).operators == [] && Retype(Retype(BARE_EXAMPLE)).operators == []
  {
    hide BeforeSecondDot;
    assert RetypeChannels(BARE_EXAMPLE.platform.value.channels)[0] == Channel(Str(""), Str("4.18"), Missing, false) by {
      assert "4.18" != "" by { assert |"4.18"| == 4; }
    }
    RetypeTwice(BARE_EXAMPLE);
  }

  lemma VersionOf418()
    ensures BeforeSecondDot("4.18") == "4.18" && Supported("4.18")
  {
    var v := "4.18";
    IndexIs(v, '.', 1);
    assert v[2..] == "18";
    assert IndexOf("18", '.') == 2;
    assert v[..2] + "18" == v;
    assert "18"[..1] == "1" && "1"[..0] == "";
    assert Natural("1") == Some(1);
    assert Natural("18") == Some(18);
  }

  // ---------------------------------------------------------------- versions by their parts

  /** Of a version at most the first two numbers are kept. */
  lemma MinVersionByParts(major: string, minor: string, rest: string)
    requires '.' !in major && '.' !in minor
    ensures BeforeSecondDot(major) == major
    ensures BeforeSecondDot(major + "." + minor) == major + "." + minor
    ensures BeforeSecondDot(major + "." + minor + "." + rest) == major + "." + minor
  {
    hide BeforeSecondDot;
    TwoNumbers(major, minor);
    ThreeNumbers(major, minor, rest);
    OneNumber(major);
  }

  lemma OneNumber(major: string)
    requires '.' !in major
    ensures BeforeSecondDot(major) == major
  {
  }

  lemma TwoNumbers(major: string, minor: string)
    requires '.' !in major && '.' !in minor
    ensures BeforeSecondDot(major + "." + minor) == major + "." + minor
  {
    var s := major + "." + minor;
    IndexIs(s, '.', |major|);
    assert s[|major| + 1..] == minor && s[..|major| + 1] == major + ".";
    assert minor[..|minor|] == minor;
  }

  lemma ThreeNumbers(major: string, minor: string, rest: string)
    requires '.' !in major && '.' !in minor
    ensures BeforeSecondDot(major + "." + minor + "." + rest) == major + "." + minor
  {
    var s, tail := major + "." + minor + "." + rest, minor + "." + rest;
    assert s == major + "." + tail;
    IndexIs(s, '.', |major|);
    assert s[|major| + 1..] == tail && s[..|major| + 1] == major + ".";
    IndexIs(tail, '.', |minor|);
    assert tail[..|minor|] == minor;
  }

  /** The version is that of the first channel: its minVersion, else what follows the last dash of its name; anything that
      is not a string does not count. */
  lemma VersionExactly(c: ImageSet, before: string, after: string)
    ensures c.platform.None? || c.platform.value.channels == [] ==> Version(c) == "latest"
    ensures c.platform.Some? && c.platform.value.channels != [] ==>
              var first := c.platform.value.channels[0];
              if first.minVersion.Str? && first.minVersion.text != "" then Version(c) == BeforeSecondDot(first.minVersion.text)
              else
                && ('-' !in after && first.name == Str(before + "-" + after) ==> Version(c) == after)
                && ('-' !in after && first.name == Str(after) ==> Version(c) == after)
                && (!first.name.Str? ==> Version(c) == "latest")
  {
    hide BeforeSecondDot;
    if '-' !in after {
      AfterLastIs(before + "-" + after, '-', |before| + 1);
      assert (before + "-" + after)[|before| + 1..] == after;
      assert after[0..] == after;
    }
  }

  /** The numeral of a number. */
  function Numeral(n: nat): string {
    if n < 10 then [('0' as int + n) as char] else Numeral(n / 10) + [('0' as int + n % 10) as char]
  }

  lemma {:induction false} NumeralRead(n: nat)
    ensures Natural(Numeral(n)) == Some(n) && |Numeral(n)| > 0 && Digit(Numeral(n)[0])
  {
    var s := Numeral(n);
    if n < 10 {
      assert s[..0] == "" && Natural("") == Some(0);
    } else {
      NumeralRead(n / 10);
      assert s[..|s| - 1] == Numeral(n / 10);
    }
  }

  /** A version is supported exactly from minor 18 on, whatever the major; a version without a minor never is. */
  lemma SupportedExactly(major: string, minor: nat)
    requires '.' !in major && minor < 0x8000_0000_0000_0000
    ensures Supported(major + "." + Numeral(minor)) <==> minor >= 18
    ensures !Supported(major)
  {
    hide Natural, Numeral;
    var s := major + "." + Numeral(minor);
    NumeralRead(minor);
    IndexIs(s, '.', |major|);
    assert s[|major| + 1..] == Numeral(minor);
  }

  // ---------------------------------------------------------------- the additions, by what they are

  const ADDED := Package("mirror-operator", "", [])

  /** The operator is of the catalog that is wanted: the override, or else any community catalog. */
  predicate Wanted(op: Operator, override: string) {
    if override != "" then op.catalog == override else "registry.redhat.io/redhat/community-operator-index" <= op.catalog
  }

  predicate HasAdded(op: Operator) {
    exists k :: 0 <= k < |op.packages| && op.packages[k].name == "mirror-operator"
  }

  /** The first operator of a wanted catalog gets the package exactly when it lacks it; with none, an operator of the
      override or of the version's community catalog is added. Without an override an unsupported version adds nothing. */
  lemma OperatorAdded(c: ImageSet, s: Settings, k: nat)
    ensures var ops, after := c.operators, Enriched(c, s).operators;
            if s.override == "" && !Supported(Version(c)) then OperatorsKept(ops, after, |ops|) && |after| == |ops|
            else
              && (k < |ops| && Wanted(ops[k], s.override) && (forall j :: 0 <= j < k ==> !Wanted(ops[j], s.override)) ==>
                    |after| == |ops| && OperatorsKept(ops, after, if HasAdded(ops[k]) then |ops| else k))
              && ((forall j :: 0 <= j < |ops| ==> !Wanted(ops[j], s.override)) ==>
                    && OperatorsKept(ops, after, |ops|)
                    && after[|ops|..] == [Operator(if s.override != "" then s.override
                                                   else "registry.redhat.io/redhat/community-operator-index" + ":v" + Version(c),
                                                   [ADDED])])
  {
    hide Enriched, Version, Supported, OperatorsKept, WithPackage, Retype, HasPackage, FirstMatch;
    OperatorsAfter(c, s);
    if s.override != "" || Supported(Version(c)) {
      var ref := CatalogRef(c, s.override).value;
      if s.override == "" { DefaultReference(Version(c)); }
      WantedMatches(c.operators, ref, s.override);
      RetypedMatches(c.operators, Retype(c).operators, ref, s.override) by { RetypeOperators(c); }
      if k < |c.operators| && Wanted(c.operators[k], s.override) && (forall j :: 0 <= j < k ==> !Wanted(c.operators[j], s.override)) {
        FirstMatchIs(c.operators, ref, s.override, k);
      } else if forall j :: 0 <= j < |c.operators| ==> !Wanted(c.operators[j], s.override) {
        FirstMatchIs(c.operators, ref, s.override, |c.operators|);
      }
    }
  }

  lemma RetypeOperators(c: ImageSet)
    ensures |Retype(c).operators| == |c.operators|
    ensures forall k :: 0 <= k < |c.operators| ==> Retype(c).operators[k] == RetypeOperator(c.operators[k])
  {
  }

  lemma WantedMatches(ops: seq<Operator>, ref: string, override: string)
    requires if override != "" then ref == override else HasPrefix(ref, COMMUNITY_CATALOG)
    ensures forall k :: 0 <= k < |ops| ==> (Wanted(ops[k], override) <==> Matches(ops[k], ref, override))
    ensures forall k :: 0 <= k < |ops| ==> (HasAdded(ops[k]) <==> HasPackage(ops[k]))
  {
  }

  lemma RetypedMatches(a: seq<Operator>, b: seq<Operator>, ref: string, override: string)
    requires |a| == |b| && forall k :: 0 <= k < |a| ==> b[k] == RetypeOperator(a[k])
    ensures FirstMatch(b, ref, override) == FirstMatch(a, ref, override)
    ensures Provided(b, ref, override) <==> Provided(a, ref, override)
  {
    FirstMatchIs(b, ref, override, FirstMatch(a, ref, override));
    ProvidedRetyped(a, b, ref, override);
  }

  /** A server image of the registry is added exactly when there is none, with the version of the configuration, read after
      the earlier stages. */
  lemma ServerAdded(c: ImageSet, s: Settings)
    ensures var wanted := if s.architect.None? then [] else Missed(c.images, s.architect.value);
            var before, after := c.images + wanted, Enriched(c, s).images;
            if s.registry == "" || (exists k :: 0 <= k < |before| && s.registry + "/rhcos-server:" <= before[k]) then after == before
            else after == before + [s.registry + "/rhcos-server:" +
                                    Version(if Injects(c, s.override) || s.architect.Some? then Retype(c) else c)]
  {
    hide RetypeOperator, RetypeTarget, CatalogRef, WithPackage, Injects, Missed, Version;
    ImagesOfFirst(c, s.override);
    VersionOfRetyped(c, s);
  }

  lemma VersionOfRetyped(c: ImageSet, s: Settings)
    ensures Version(WithArchitect(WithOperator(c, s.override), s.architect))
            == Version(if Injects(c, s.override) || s.architect.Some? then Retype(c) else c)
  {
    hide Injects, WithPackage, CatalogRef, Missed, BeforeSecondDot, AfterLast, RetypeOperator;
    RetypeTwice(c);
  }

  /** The wanted images that are missing are added in their order. */
  lemma {:induction false} MissedInOrder(images: seq<string>, a: seq<string>, b: seq<string>)
    ensures Missed(images, a + b) == Missed(images, a) + Missed(images, b)
  {
    if |b| == 0 {
      assert a + b == a;
    } else {
      MissedInOrder(images, a, b[..|b| - 1]);
      assert (a + b)[..|a + b| - 1] == a + b[..|b| - 1] && (a + b)[|a + b| - 1] == b[|b| - 1];
    }
  }

  lemma MissedOne(images: seq<string>, x: string)
    ensures Missed(images, [x]) == if x != "" && x !in images then [x] else []
  {
    assert [x][..0] == [] && Missed(images, []) == [];
  }

  /** The architectures of a platform stay as they are, except that a missing list becomes amd64, and so does an empty one
      that a typed stage has dropped; fields that the typed structure does not have are lost in such a stage. */
  lemma ArchitecturesExactly(c: ImageSet, s: Settings)
    ensures var e, typed := Enriched(c, s), Injects(c, s.override) || s.architect.Some? || s.registry != "";
            && e.others == (if typed then [] else c.others)
            && (c.platform.Some? ==>
                  e.platform.Some? && e.platform.value.architectures ==
                    var was := c.platform.value.architectures;
                    if was.None? || (was == Some([]) && typed) then Some(["amd64"]) else was)
  {
    hide WithPackage, CatalogRef, Injects, Missed, Version, HasServer, RetypeOperator;
    RetypeTwice(c);
  }

  /** A typed stage writes names always and versions only when there is one, all of them as strings. */
  lemma ChannelRetyped(c: Channel)
    ensures var t := RetypeChannel(c);
            && t.name == Str(if c.name.Missing? then "" else c.name.text)
            && t.minVersion == (if c.minVersion.Missing? || c.minVersion.text == "" then Missing else Str(c.minVersion.text))
            && t.maxVersion == (if c.maxVersion.Missing? || c.maxVersion.text == "" then Missing else Str(c.maxVersion.text))
            && t.full == c.full
  {
  }

  const LIMIT: nat := 0x8000_0000_0000_0000

  /** Numbers are read with or without a sign, as far as they fit into 64 bits. */
  lemma NumbersRead(n: nat)
    ensures Atoi(Numeral(n)) == (if n < LIMIT then Some(n) else None)
    ensures Atoi("+" + Numeral(n)) == (if n < LIMIT then Some(n) else None)
    ensures Atoi("-" + Numeral(n)) == (if n <= LIMIT then Some(0 - n as int) else None)
  {
    hide Natural, Numeral;
    NumeralRead(n);
    var digits := Numeral(n);
    assert ("+" + digits)[1..] == digits && ("-" + digits)[1..] == digits;
  }

  /** Anything else is no number. */
  lemma NotANumber(text: string, k: nat)
    requires 0 < k < |text| && !Digit(text[k])
    ensures Atoi(text) == None && Atoi("") == None
  {
    hide Natural;
    NotNatural(text, k);
    NotNatural(text[1..], k - 1);
  }

  lemma {:induction false} NotNatural(digits: string, k: nat)
    requires k < |digits| && !Digit(digits[k])
    ensures Natural(digits) == None
  {
    if k < |digits| - 1 { NotNatural(digits[..|digits| - 1], k); }
  }
}
