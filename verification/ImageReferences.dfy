/** Rewriting image references to the intermediate registry. */
module ImageReferences {
  import opened Text

  const DOCKER_IO := "docker.io/"
  const DOCKER_SCHEME := "docker://"

  /** A registry host in front of the first slash. */
  predicate Qualified(ref: string) {
    var i := IndexOf(ref, '/');
    0 < i < |ref| && ('.' in ref[..i] || ':' in ref[..i] || ref[..i] == "localhost")
  }

  /** normalizeImageRef */
  function Normalize(ref: string): string {
    if Qualified(ref) then ref else DOCKER_IO + ref
  }

  /** A path in the intermediate registry. */
  function Under(registry: string, path: string): string {
    registry + "/" + path
  }

  /** What follows the registry of a reference. */
  function PathOf(ref: string): string {
    var slash := IndexOf(ref, '/');
    if slash == |ref| then ref else ref[slash + 1..]
  }

  /** rewriteImageReference */
  function Rewrite(original: string, registry: string): string {
    var path := PathOf(Normalize(TrimPrefix(original, DOCKER_SCHEME)));
    Under(registry, if HasSuffix(original, "/*") then path else LastComponent(path))
  }

  /** The last component of a reference, tag or digest included. */
  function LastComponent(ref: string): string {
    ref[AfterLast(ref, '/')..]
  }

  lemma DockerIoQualified(ref: string)
    ensures Qualified(DOCKER_IO + ref) && IndexOf(DOCKER_IO + ref, '/') == 9
  {
    var s := DOCKER_IO + ref;
    assert s[9] == '/' && forall k :: 0 <= k < 9 ==> s[k] != '/';
    IndexIs(s, '/', 9);
    assert s[..9][6] == '.';
  }

  /** Normalizing always leaves a qualified reference, and normalizing again changes nothing. */
  lemma NormalizeIdempotent(ref: string)
    ensures Qualified(Normalize(ref))
    ensures Normalize(Normalize(ref)) == Normalize(ref)
    ensures ref == Normalize(ref) <==> Qualified(ref)
  {
    DockerIoQualified(ref);
    assert |DOCKER_IO + ref| > |ref|;
  }

  lemma NormalizedComponent(ref: string)
    ensures LastComponent(Normalize(ref)) == LastComponent(ref)
  {
    if !Qualified(ref) {
      assert DOCKER_IO + ref == "docker.io" + "/" + ref;
      LastUnder("docker.io", ref);
    }
  }

  lemma PathComponent(ref: string)
    ensures LastComponent(PathOf(ref)) == LastComponent(ref)
  {
    hide LastComponent;
    var slash := IndexOf(ref, '/');
    if slash < |ref| { SuffixComponent(ref, slash); }
  }

  /** The rewritten reference always lies in the intermediate registry, under the image's own last component. */
  lemma RewriteTarget(original: string, registry: string)
    ensures HasPrefix(Rewrite(original, registry), registry + "/")
    ensures LastComponent(Rewrite(original, registry)) == LastComponent(TrimPrefix(original, DOCKER_SCHEME))
  {
    hide LastComponent, HasSuffix, Normalize, PathOf;
    var trimmed := TrimPrefix(original, DOCKER_SCHEME);
    var path := PathOf(Normalize(trimmed));
    NormalizedComponent(trimmed);
    PathComponent(Normalize(trimmed));
    LastUnder(registry, path);
    LastUnder(registry, LastComponent(path));
    LastHasNoSlash(path);
    NoSlashComponent(LastComponent(path));
  }

  lemma NoSlashComponent(name: string)
    requires forall k :: 0 <= k < |name| ==> name[k] != '/'
    ensures LastComponent(name) == name
  {
  }

  /** The path after a slash has the same last component. */
  lemma SuffixComponent(ref: string, slash: nat)
    requires slash < |ref| && ref[slash] == '/'
    ensures LastComponent(ref) == LastComponent(ref[slash + 1..])
  {
    var path := ref[slash + 1..];
    var i := AfterLast(path, '/');
    assert i > 0 ==> ref[slash + i] == path[i - 1];
    assert forall k :: slash + 1 + i <= k < |ref| ==> ref[k] == path[k - slash - 1];
    AfterLastIs(ref, '/', slash + 1 + i);
  }

  lemma LastUnder(registry: string, path: string)
    ensures LastComponent(registry + "/" + path) == LastComponent(path)
  {
    var ref := registry + "/" + path;
    SuffixComponent(ref, |registry|);
    assert ref[|registry| + 1..] == path;
  }

  // ---------------------------------------------------------------- applying it twice

  /** A registry that a rewritten reference can be recognised by: a qualified host, no scheme. */
  predicate UsableRegistry(registry: string) {
    && Qualified(registry + "/")
    && !HasPrefix(registry + "/", DOCKER_SCHEME) && !HasPrefix(DOCKER_SCHEME, registry + "/")
  }

  /** What a second application sees of a reference in the registry. */
  lemma InRegistry(registry: string, path: string)
    requires UsableRegistry(registry)
    ensures var ref := registry + "/" + path;
            && Qualified(ref) && TrimPrefix(ref, DOCKER_SCHEME) == ref && IndexOf(ref, '/') == IndexOf(registry + "/", '/')
  {
    var base, ref := registry + "/", registry + "/" + path;
    var i := IndexOf(base, '/');
    assert forall k :: 0 <= k < |base| ==> ref[k] == base[k];
    IndexIs(ref, '/', i);
    assert ref[..i] == base[..i];
    SchemeNotSplit(registry, path);
  }

  /** The scheme cannot arise from the registry together with what follows it. */
  lemma SchemeNotSplit(registry: string, path: string)
    requires UsableRegistry(registry)
    ensures !HasPrefix(registry + "/" + path, DOCKER_SCHEME)
  {
    var base, ref := registry + "/", registry + "/" + path;
    if HasPrefix(ref, DOCKER_SCHEME) {
      assert forall k :: 0 <= k < |base| ==> ref[k] == base[k];
    }
  }

  predicate HasSlash(s: string) {
    '/' in s
  }

  /** The path a second application finds: the registry's own path part comes first. */
  lemma PathInRegistry(registry: string, path: string)
    requires UsableRegistry(registry)
    ensures PathOf(Normalize(TrimPrefix(Under(registry, path), DOCKER_SCHEME))) == PathOf(registry + "/") + path
  {
    var ref := Under(registry, path);
    InRegistry(registry, path);
    var i := IndexOf(registry + "/", '/');
    assert ref[i + 1..] == (registry + "/")[i + 1..] + path;
  }

  /** A second application to an image in the registry leaves it alone. */
  lemma RewriteInRegistry(registry: string, name: string)
    requires UsableRegistry(registry) && !HasSlash(name) && name != "*"
    ensures Rewrite(Under(registry, name), registry) == Under(registry, name)
  {
    hide PathOf, Normalize, UsableRegistry, AfterLast;
    PathInRegistry(registry, name);
    NormalizedComponent(TrimPrefix(Under(registry, name), DOCKER_SCHEME));
    PathComponent(Normalize(TrimPrefix(Under(registry, name), DOCKER_SCHEME)));
    InRegistry(registry, name);
    LastUnder(registry, name);
    NoSlashComponent(name);
    if HasSuffix(Under(registry, name), "/*") { WildcardName(registry, name); }
  }

  lemma WildcardName(registry: string, name: string)
    requires HasSuffix(Under(registry, name), "/*") && !HasSlash(name)
    ensures name == "*"
  {
    var ref := Under(registry, name);
    assert ref[|ref| - 2] == '/' && ref[|ref| - 1] == '*';
  }

  lemma WildcardSuffix(registry: string, path: string)
    requires HasSuffix("/" + path, "/*")
    ensures HasSuffix(Under(registry, path), "/*")
  {
    var ref := Under(registry, path);
    assert ref == registry + ("/" + path);
    assert ref[|ref| - 2..] == ("/" + path)[|path| - 1..];
  }

  lemma LongerUnder(registry: string, extra: string, path: string)
    ensures Under(registry, extra + path) == Under(registry, path) <==> |extra| == 0
  {
    if |extra| == 0 { assert extra + path == path; }
    assert |Under(registry, extra + path)| == |Under(registry, path)| + |extra|;
  }

  lemma RegistryPath(registry: string)
    ensures |PathOf(registry + "/")| > 0 <==> HasSlash(registry)
  {
    var base := registry + "/";
    var i := IndexOf(base, '/');
    assert base[|registry|] == '/';
    if HasSlash(registry) {
      var k :| 0 <= k < |registry| && registry[k] == '/';
      assert base[k] == '/';
    }
  }

  /** A wildcard is rewritten with its whole path, so a second application repeats the path part of the registry. */
  lemma WildcardTwice(registry: string, path: string)
    requires UsableRegistry(registry) && HasSuffix("/" + path, "/*")
    ensures Rewrite(Under(registry, path), registry) == Under(registry, PathOf(registry + "/") + path)
    ensures Rewrite(Under(registry, path), registry) == Under(registry, path) <==> !HasSlash(registry)
  {
    hide UsableRegistry, HasSlash, Under, PathOf, Normalize, HasSuffix;
    WildcardSuffix(registry, path);
    PathInRegistry(registry, path);
    LongerUnder(registry, PathOf(registry + "/"), path);
    RegistryPath(registry);
  }

  lemma LastHasNoSlash(path: string)
    ensures !HasSlash(LastComponent(path))
  {
  }

  lemma NotWildcard(original: string)
    requires LastComponent(TrimPrefix(original, DOCKER_SCHEME)) != "*"
    ensures !HasSuffix(original, "/*")
  {
    if HasSuffix(original, "/*") {
      var n := |original|;
      assert original[n - 2] == '/' && original[n - 1] == '*';
      AfterLastIs(original, '/', n - 1);
    }
  }

  lemma StarTail(path: string)
    requires LastComponent(path) == "*"
    ensures HasSuffix("/" + path, "/*")
  {
    var i := AfterLast(path, '/');
    assert ("/" + path)[i] == '/';
    assert ("/" + path)[|path| - 1..] == "/" + path[i..];
  }

  /** Rewriting twice is rewriting once, exactly unless a wildcard meets a registry with a path part. */
  lemma RewriteIdempotentExactly(original: string, registry: string)
    requires UsableRegistry(registry)
    ensures var once := Rewrite(original, registry);
            Rewrite(once, registry) == once <==>
              LastComponent(TrimPrefix(original, DOCKER_SCHEME)) != "*" || !HasSlash(registry)
  {
    hide UsableRegistry, HasSlash, Under, PathOf, Normalize, HasSuffix, LastComponent;
    var trimmed := TrimPrefix(original, DOCKER_SCHEME);
    NormalizedComponent(trimmed);
    PathComponent(Normalize(trimmed));
    var path := PathOf(Normalize(trimmed));
    var name := LastComponent(path);
    LastHasNoSlash(path);
    if name != "*" {
      NotWildcard(original);
      RewriteInRegistry(registry, name);
    } else {
      NoSlashComponent(name);
      StarTail(path);
      StarTail(name);
      WildcardTwice(registry, if HasSuffix(original, "/*") then path else name);
    }
  }

  // ---------------------------------------------------------------- references by their parts

  lemma FirstSlash(head: string, rest: string)
    requires '/' !in head
    ensures IndexOf(head + "/" + rest, '/') == |head|
    ensures (head + "/" + rest)[..|head|] == head && (head + "/" + rest)[|head| + 1..] == rest
  {
    IndexIs(head + "/" + rest, '/', |head|);
  }

  /** What comes before the first slash is a registry host exactly when it has a dot or a colon or is localhost. Any other
      reference is one of Docker Hub. */
  lemma NormalizeByParts(head: string, rest: string)
    requires '/' !in head
    ensures var ref := head + "/" + rest;
            Normalize(ref) == if '.' in head || ':' in head || head == "localhost" then ref else "docker.io/" + ref
    ensures Normalize(head) == "docker.io/" + head
  {
    FirstSlash(head, rest);
  }

  /** The scheme is cut off, and nothing else. */
  lemma SchemeCut(ref: string)
    ensures TrimPrefix("docker://" + ref, DOCKER_SCHEME) == ref
    ensures !("docker://" <= ref) ==> TrimPrefix(ref, DOCKER_SCHEME) == ref
  {
    assert ("docker://" + ref)[9..] == ref;
  }

  /** An image, with or without a scheme and whatever its host and path, comes to lie directly under the registry. */
  lemma RewriteImage(scheme: string, path: string, name: string, registry: string)
    requires scheme == "" || scheme == "docker://"
    requires path == "" || path[|path| - 1] == '/'
    requires scheme == "" ==> !("docker://" <= path + name)
    requires '/' !in name && name != "*"
    ensures Rewrite(scheme + path + name, registry) == registry + "/" + name
  {
    hide Normalize, PathOf, AfterLast;
    var original, ref := scheme + path + name, path + name;
    assert original == scheme + ref;
    SchemeCut(ref);
    assert "" + ref == ref;
    NormalizedComponent(ref);
    PathComponent(Normalize(ref));
    EndComponent(path, name);
    if HasSuffix(original, "/*") { NotEndingInStar(scheme + path, name); }
  }

  lemma EndComponent(path: string, name: string)
    requires (path == "" || path[|path| - 1] == '/') && '/' !in name
    ensures LastComponent(path + name) == name
  {
    if path == "" {
      assert path + name == name;
      NoSlashComponent(name);
    } else {
      assert (path + name)[|path| - 1] == '/';
      AfterLastIs(path + name, '/', |path|);
    }
  }

  lemma NotEndingInStar(before: string, name: string)
    requires '/' !in name && HasSuffix(before + name, "/*")
    ensures name == "*" || name == ""
  {
    var s := before + name;
    assert s[|s| - 2] == '/' && s[|s| - 1] == '*';
  }

  /** A wildcard keeps its path behind the host; on Docker Hub the whole reference is its path. */
  lemma RewriteWildcard(scheme: string, head: string, path: string, registry: string)
    requires scheme == "" || scheme == "docker://"
    requires '/' !in head && (path == "" || path[|path| - 1] == '/')
    requires scheme == "" ==> !("docker://" <= head + "/" + (path + "*"))
    ensures Rewrite(scheme + (head + "/" + (path + "*")), registry)
            == registry + "/" + (if '.' in head || ':' in head || head == "localhost" then path + "*"
                                 else head + "/" + (path + "*"))
  {
    hide Normalize, PathOf, HasSuffix, TrimPrefix;
    var ref := head + "/" + (path + "*");
    SchemeCut(ref);
    assert "" + ref == ref;
    NormalizeByParts(head, path + "*");
    PathBehind(head, path + "*");
    assert '/' !in "docker.io" by { DockerIoQualified(""); }
    PathBehind("docker.io", ref);
    assert "docker.io/" + ref == "docker.io" + "/" + ref;
    EndsInStar(scheme + (head + "/"), path);
    assert scheme + (head + "/") + (path + "*") == scheme + ref;
  }

  lemma PathBehind(head: string, rest: string)
    requires '/' !in head
    ensures PathOf(head + "/" + rest) == rest
  {
    FirstSlash(head, rest);
  }

  lemma EndsInStar(before: string, path: string)
    requires before != "" && before[|before| - 1] == '/' && (path == "" || path[|path| - 1] == '/')
    ensures HasSuffix(before + (path + "*"), "/*")
  {
    var s := before + (path + "*");
    assert s[|s| - 1] == '*' && s[|s| - 2] == '/';
  }
}
