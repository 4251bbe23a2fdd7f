/** The three pull secrets the platform reconciler keeps in step: the operator's copy, the update service's copy of
    that, and the cluster secret both come from. A round is one reconcile: ensurePullSecret, then, unless that fails
    or the update service is disabled, ensureOSUSPullSecret. */
module PullSecrets {
  import opened Objects

  /** The JSON value under a host: an object whose "auth" is the string `auth`, with its other fields, or anything else. */
  datatype Auth = Login(auth: string, others: string) | NoLogin(text: string)

  /** `auths`: None when the document has no object of that name. `others`: the other fields of the document. */
  datatype Config = Config(auths: Option<map<string, Auth>>, others: string)

  /** The text of a secret. Two texts of the same document differ in their layout; json.Marshal writes layout 0. */
  datatype Content = Malformed(text: string) | Document(config: Config, layout: nat)

  /** `login`: the encoded robot credentials, None while they cannot be had. */
  datatype Quay = Quay(host: string, login: Option<string>)

  /** `quay`: None without a registry or host name. `custom`: the platform names its own secret, which is left alone. */
  datatype Settings = Settings(quay: Option<Quay>, custom: bool, updateService: bool)

  const LINKED_NAME := "pull-secret"

  /** `linked`: the image pull secrets of the update service's account, None while the account is missing. */
  datatype World = World(operator: Option<Content>, osus: Option<Content>, cluster: Option<Content>, linked: Option<seq<string>>)

  datatype Effects = Effects(world: World, ok: bool, writes: nat, restarts: nat)

  // ---------------------------------------------------------------- specification

  function Marshal(config: Config): Content {
    Document(config, 0)
  }

  function AuthsOf(config: Config): map<string, Auth> {
    if config.auths.Some? then config.auths.value else map[]
  }

  predicate IsLogin(entry: Auth, login: string) {
    entry.Login? && entry.auth == login
  }

  predicate HasLogin(auths: map<string, Auth>, host: string, login: string) {
    host in auths && IsLogin(auths[host], login)
  }

  /** The source's entry replaces the present one; `shown` is the text the two are compared by. */
  predicate Replaces(existing: map<string, Auth>, source: map<string, Auth>, shown: Auth -> string, host: string) {
    host in source && (host !in existing || shown(existing[host]) != shown(source[host]))
  }

  ghost predicate SomeReplaced(existing: map<string, Auth>, source: map<string, Auth>, shown: Auth -> string) {
    exists host :: Replaces(existing, source, shown, host)
  }

  function MergedAuths(existing: map<string, Auth>, source: map<string, Auth>, shown: Auth -> string): map<string, Auth> {
    map host | host in existing.Keys + source.Keys ::
      if Replaces(existing, source, shown, host) then source[host] else existing[host]
  }

  /** mergePullSecrets: None on a parse error, else the merged text and whether an entry changed. */
  ghost function Merged(existing: Content, source: Content, shown: Auth -> string): Option<(Content, bool)> {
    if existing.Malformed? || source.Malformed? then None
    else
      var a, b := AuthsOf(existing.config), AuthsOf(source.config);
      Some((Marshal(existing.config.(auths := Some(MergedAuths(a, b, shown)))), SomeReplaced(a, b, shown)))
  }

  /** addQuayCredentialsIfNeeded: None on an error. */
  function WithQuay(quay: Option<Quay>, content: Content): Option<(Content, bool)> {
    if quay.None? then Some((content, false))
    else if content.Malformed? then None
    else
      var host, auths := quay.value.host, AuthsOf(content.config);
      match quay.value.login
      case None => if host in auths then Some((content, false)) else None
      case Some(login) =>
        if HasLogin(auths, host, login) then Some((content, false))
        else Some((Marshal(content.config.(auths := Some(auths[host := Login(login, "")]))), true))
  }

  /** What ensurePullSecret makes of an existing operator secret. */
  ghost function Combined(quay: Option<Quay>, existing: Content, source: Content, shown: Auth -> string)
    : Option<(Content, bool)>
  {
    var merged := Merged(existing, source, shown);
    if merged.None? then None
    else
      var extended := WithQuay(quay, merged.value.0);
      if extended.None? then merged else Some((extended.value.0, merged.value.1 || extended.value.1))
  }

  ghost function PullSecretStep(settings: Settings, shown: Auth -> string, w: World): Effects {
    if settings.custom then Effects(w, true, 0, 0)
    else if w.cluster.None? then Effects(w, false, 0, 0)
    else
      match w.operator
      case None =>
        var extended := WithQuay(settings.quay, w.cluster.value);
        Effects(w.(operator := Some(if extended.None? then w.cluster.value else extended.value.0)), true, 1, 0)
      case Some(existing) =>
        var combined := Combined(settings.quay, existing, w.cluster.value, shown);
        if combined.None? then Effects(w, false, 0, 0)
        else if combined.value.1 then Effects(w.(operator := Some(combined.value.0)), true, 1, 1)
        else Effects(w, true, 0, 0)
  }

  function Linked(names: seq<string>): seq<string> {
    if LINKED_NAME in names then names else names + [LINKED_NAME]
  }

  /** Copying the operator secret and linking it to the account. */
  function CopyStep(w: World): Effects {
    if w.operator.None? then Effects(w, false, 0, 0)
    else
      var copied := if w.osus == w.operator then 0 else 1;
      var next := w.(osus := w.operator);
      if w.linked.None? then Effects(next, false, copied, 0)
      else
        var names := Linked(w.linked.value);
        Effects(next.(linked := Some(names)), true, copied + (if names == w.linked.value then 0 else 1), 0)
  }

  /** Writing the robot credentials into the cluster secret. */
  function ClusterStep(quay: Option<Quay>, w: World): Effects {
    if quay.None? || quay.value.login.None? then Effects(w, true, 0, 0)
    else if w.cluster.None? || w.cluster.value.Malformed? then Effects(w, false, 0, 0)
    else
      var extended := WithQuay(quay, w.cluster.value).value;
      Effects(w.(cluster := Some(extended.0)), true, if extended.1 then 1 else 0, 0)
  }

  function OsusStep(quay: Option<Quay>, w: World): Effects {
    var copy := CopyStep(w);
    if !copy.ok then copy else
      var cluster := ClusterStep(quay, copy.world);
      Effects(cluster.world, cluster.ok, copy.writes + cluster.writes, copy.restarts)
  }

  ghost function Round(settings: Settings, shown: Auth -> string, w: World): Effects {
    var first := PullSecretStep(settings, shown, w);
    if !first.ok || !settings.updateService then first else
      var second := OsusStep(settings.quay, first.world);
      Effects(second.world, second.ok, first.writes + second.writes, first.restarts + second.restarts)
  }

  ghost function After(settings: Settings, shown: Auth -> string, w: World, rounds: nat): World {
    if rounds == 0 then w else Round(settings, shown, After(settings, shown, w, rounds - 1)).world
  }

  // ---------------------------------------------------------------- updates that fail

  /** The calls of a round that the server can refuse: because another writer was first, or for any other reason. */
  datatype Target = OperatorSecret | ServiceSecret | ServiceAccount | ClusterSecret | BackendPods

  function Failed(w: World, writes: nat): Effects {
    Effects(w, false, writes, 0)
  }

  /** ensurePullSecret when these calls are refused: the secret is written or not, and the pods are restarted only after it
      was. */
  ghost function PullSecretTry(settings: Settings, shown: Auth -> string, w: World, refused: set<Target>): Effects {
    var e := PullSecretStep(settings, shown, w);
    if e.writes == 0 then e
    else if OperatorSecret in refused then Failed(w, 0)
    else if e.restarts > 0 && BackendPods in refused then Failed(e.world, e.writes)
    else e
  }

  function CopyTry(w: World, refused: set<Target>): Effects {
    if w.operator.None? then Failed(w, 0)
    else if w.osus != w.operator && ServiceSecret in refused then Failed(w, 0)
    else
      var copied := if w.osus == w.operator then 0 else 1;
      var next := w.(osus := w.operator);
      if w.linked.None? then Failed(next, copied)
      else if LINKED_NAME !in w.linked.value && ServiceAccount in refused then Failed(next, copied)
      else CopyStep(w)
  }

  function ClusterTry(quay: Option<Quay>, w: World, refused: set<Target>): Effects {
    var e := ClusterStep(quay, w);
    if e.writes > 0 && ClusterSecret in refused then Failed(w, 0) else e
  }

  function OsusTry(quay: Option<Quay>, w: World, refused: set<Target>): Effects {
    var copy := CopyTry(w, refused);
    if !copy.ok then copy else
      var cluster := ClusterTry(quay, copy.world, refused);
      Effects(cluster.world, cluster.ok, copy.writes + cluster.writes, copy.restarts)
  }

  ghost function RoundTry(settings: Settings, shown: Auth -> string, w: World, refused: set<Target>): Effects {
    var first := PullSecretTry(settings, shown, w, refused);
    if !first.ok || !settings.updateService then first else
      var second := OsusTry(settings.quay, first.world, refused);
      Effects(second.world, second.ok, first.writes + second.writes, first.restarts + second.restarts)
  }

  /** A round in which nothing is refused. */
  lemma NothingRefused(settings: Settings, shown: Auth -> string, w: World)
    ensures RoundTry(settings, shown, w, {}) == Round(settings, shown, w)
  {
    hide PullSecretStep, ClusterStep;
  }

  // ---------------------------------------------------------------- the secrets as the reconciler updates them

  /** The merge when the source's hosts outside `todo` are done. */
  ghost predicate MergedBut(now: map<string, Auth>, before: map<string, Auth>, source: map<string, Auth>,
                            shown: Auth -> string, todo: set<string>)
  {
    && (forall h :: h in now <==> h in before || (h in source && h !in todo))
    && (forall h :: h in now ==> now[h] == if h !in todo && Replaces(before, source, shown, h) then source[h] else before[h])
  }

  ghost predicate ReplacedBut(before: map<string, Auth>, source: map<string, Auth>, shown: Auth -> string, todo: set<string>) {
    exists h :: h !in todo && Replaces(before, source, shown, h)
  }

  lemma MergeOne(now: map<string, Auth>, before: map<string, Auth>, source: map<string, Auth>, shown: Auth -> string,
                 todo: set<string>, host: string)
    requires MergedBut(now, before, source, shown, todo) && host in todo && host in source
    ensures Replaces(before, source, shown, host) <==> host !in now || shown(now[host]) != shown(source[host])
    ensures MergedBut(if Replaces(before, source, shown, host) then now[host := source[host]] else now,
                      before, source, shown, todo - {host})
    ensures ReplacedBut(before, source, shown, todo - {host}) ==
            (ReplacedBut(before, source, shown, todo) || Replaces(before, source, shown, host))
  {
    if Replaces(before, source, shown, host) { assert host !in todo - {host}; }
    if h :| h !in todo && Replaces(before, source, shown, h) { assert h !in todo - {host}; }
  }

  lemma MergeAll(now: map<string, Auth>, before: map<string, Auth>, source: map<string, Auth>, shown: Auth -> string)
    requires MergedBut(now, before, source, shown, {})
    ensures now == MergedAuths(before, source, shown)
    ensures ReplacedBut(before, source, shown, {}) <==> SomeReplaced(before, source, shown)
  {
    if h :| Replaces(before, source, shown, h) { assert h !in {}; }
  }

  method MergePullSecrets(existing: Content, source: Content, shown: Auth -> string) returns (r: Option<(Content, bool)>)
    ensures r == Merged(existing, source, shown)
  {
    if existing.Malformed? || source.Malformed? { return None; }
    hide MergedAuths, Replaces, MergedBut, ReplacedBut, SomeReplaced;
    var existingAuths := AuthsOf(existing.config);
    var sourceAuths := AuthsOf(source.config);
    ghost var before := existingAuths;
    var changed := false;
    var hosts := sourceAuths.Keys;
    MergeNone(before, sourceAuths, shown);
    while hosts != {}
      invariant hosts <= sourceAuths.Keys
      invariant MergedBut(existingAuths, before, sourceAuths, shown, hosts)
      invariant changed <==> ReplacedBut(before, sourceAuths, shown, hosts)
      decreases |hosts|
    {
      var host :| host in hosts;
      MergeOne(existingAuths, before, sourceAuths, shown, hosts, host);
      if host !in existingAuths || shown(existingAuths[host]) != shown(sourceAuths[host]) {
        existingAuths := existingAuths[host := sourceAuths[host]];
        changed := true;
      }
      hosts := hosts - {host};
    }
    MergeAll(existingAuths, before, sourceAuths, shown);
    r := Some((Marshal(existing.config.(auths := Some(existingAuths))), changed));
  }

  lemma MergeNone(before: map<string, Auth>, source: map<string, Auth>, shown: Auth -> string)
    ensures MergedBut(before, before, source, shown, source.Keys) && !ReplacedBut(before, source, shown, source.Keys)
  {
  }

  method Names(names: seq<string>, name: string) returns (found: bool)
    ensures found <==> name in names
  {
    found := false;
    for i := 0 to |names|
      invariant found <==> name in names[..i]
    {
      if names[i] == name { return true; }
    }
    assert names[..|names|] == names;
  }

  class Secrets {
    var operator: Option<Content>
    var osus: Option<Content>
    var cluster: Option<Content>
    var linked: Option<seq<string>>
    ghost var writes: nat
    ghost var restarts: nat

    ghost function Abstract(): World
      reads this
    {
      World(operator, osus, cluster, linked)
    }

    ghost predicate Made(w0: nat, r0: nat, e: Effects, ok: bool)
      reads this
    {
      Abstract() == e.world && ok == e.ok && writes == w0 + e.writes && restarts == r0 + e.restarts
    }

    method EnsurePullSecret(settings: Settings, shown: Auth -> string, refused: set<Target>) returns (ok: bool)
      modifies this`operator, this`writes, this`restarts
      ensures Made(old(writes), old(restarts), PullSecretTry(settings, shown, old(Abstract()), refused), ok)
    {
      if settings.custom { return true; }
      if cluster.None? { return false; }
      var source := cluster.value;
      if operator.Some? {
        var merge := MergePullSecrets(operator.value, source, shown);
        if merge.None? { return false; }
        var merged, changed := merge.value.0, merge.value.1;
        var extended := WithQuay(settings.quay, merged);
        if extended.Some? { merged, changed := extended.value.0, changed || extended.value.1; }
        if changed {
          if OperatorSecret in refused { return false; }
          operator, writes := Some(merged), writes + 1;
          if BackendPods in refused { return false; }
          restarts := restarts + 1;
        }
        return true;
      }
      var enhanced := WithQuay(settings.quay, source);
      if OperatorSecret in refused { return false; }
      operator, writes := Some(if enhanced.Some? then enhanced.value.0 else source), writes + 1;
      ok := true;
    }

    /** The last part of ensureOSUSPullSecret. */
    method AddToClusterSecret(quay: Option<Quay>, refused: set<Target>) returns (ok: bool)
      modifies this`cluster, this`writes
      ensures Made(old(writes), old(restarts), ClusterTry(quay, old(Abstract()), refused), ok)
    {
      if quay.None? || quay.value.login.None? { return true; }
      if cluster.None? || cluster.value.Malformed? { return false; }
      var host, login := quay.value.host, quay.value.login.value;
      var config := cluster.value.config;
      var auths := if config.auths.Some? then config.auths.value else map[];
      if host in auths && auths[host].Login? && auths[host].auth == login { return true; }
      auths := auths[host := Login(login, "")];
      if ClusterSecret in refused { return false; }
      cluster, writes := Some(Marshal(config.(auths := Some(auths)))), writes + 1;
      ok := true;
    }

    method EnsureOSUSPullSecret(quay: Option<Quay>, refused: set<Target>) returns (ok: bool)
      modifies this`osus, this`cluster, this`linked, this`writes
      ensures Made(old(writes), old(restarts), OsusTry(quay, old(Abstract()), refused), ok)
    {
      if operator.None? { return false; }
      if osus != operator {
        if ServiceSecret in refused { return false; }
        osus, writes := operator, writes + 1;
      }
      if linked.None? { return false; }
      var hasSecret := Names(linked.value, LINKED_NAME);
      if !hasSecret {
        if ServiceAccount in refused { return false; }
        linked, writes := Some(linked.value + [LINKED_NAME]), writes + 1;
      }
      ok := AddToClusterSecret(quay, refused);
    }

    method Reconcile(settings: Settings, shown: Auth -> string, refused: set<Target>) returns (ok: bool)
      modifies this
      ensures Made(old(writes), old(restarts), RoundTry(settings, shown, old(Abstract()), refused), ok)
    {
      ok := EnsurePullSecret(settings, shown, refused);
      if ok && settings.updateService { ok := EnsureOSUSPullSecret(settings.quay, refused); }
    }
  }

  // ---------------------------------------------------------------- entries over the rounds

  /** The entries after a merge and the robot login, when there is one. */
  function NextAuths(robot: Option<(string, string)>, a: map<string, Auth>, b: map<string, Auth>, shown: Auth -> string)
    : map<string, Auth>
  {
    var merged := MergedAuths(a, b, shown);
    if robot.None? || HasLogin(merged, robot.value.0, robot.value.1) then merged
    else merged[robot.value.0 := Login(robot.value.1, "")]
  }

  function Robot(quay: Option<Quay>): Option<(string, string)> {
    if quay.None? || quay.value.login.None? then None else Some((quay.value.host, quay.value.login.value))
  }

  ghost predicate Steady(robot: Option<(string, string)>, a: map<string, Auth>, b: map<string, Auth>, shown: Auth -> string) {
    !SomeReplaced(a, b, shown) && (robot.Some? ==> HasLogin(a, robot.value.0, robot.value.1))
  }

  ghost predicate AgreeBut(robot: Option<(string, string)>, a: map<string, Auth>, b: map<string, Auth>, shown: Auth -> string) {
    forall h :: Replaces(a, b, shown, h) ==> robot.Some? && h == robot.value.0
  }

  lemma NothingReplaced(a: map<string, Auth>, b: map<string, Auth>, shown: Auth -> string)
    requires !SomeReplaced(a, b, shown)
    ensures MergedAuths(a, b, shown) == a
  {
  }

  lemma CombinedMeaning(quay: Option<Quay>, existing: Content, source: Content, shown: Auth -> string)
    requires existing.Document? && source.Document?
    ensures var a, b := AuthsOf(existing.config), AuthsOf(source.config);
            var combined := Combined(quay, existing, source, shown);
            && combined.Some?
            && combined.value.0 == Marshal(existing.config.(auths := Some(NextAuths(Robot(quay), a, b, shown))))
            && (combined.value.1 <==> !Steady(Robot(quay), a, b, shown))
  {
    hide MergedAuths, Replaces, SomeReplaced, HasLogin;
    var a, b := AuthsOf(existing.config), AuthsOf(source.config);
    if !SomeReplaced(a, b, shown) { NothingReplaced(a, b, shown); }
  }

  /** One round brings every host of the source in, and the robot login. */
  lemma NextAgrees(robot: Option<(string, string)>, a: map<string, Auth>, b: map<string, Auth>, shown: Auth -> string)
    ensures var next := NextAuths(robot, a, b, shown);
            AgreeBut(robot, next, b, shown) && (robot.Some? ==> HasLogin(next, robot.value.0, robot.value.1))
  {
  }

  ghost predicate SameBut(robot: Option<(string, string)>, b: map<string, Auth>, c: map<string, Auth>) {
    forall h :: robot.None? || h != robot.value.0 ==> (h in b <==> h in c) && (h in b ==> b[h] == c[h])
  }

  /** The source keeps another login for the registry, shown differently from what is there. */
  predicate Rival(robot: Option<(string, string)>, a: map<string, Auth>, b: map<string, Auth>, shown: Auth -> string) {
    robot.Some? && Replaces(a, b, shown, robot.value.0) && !IsLogin(b[robot.value.0], robot.value.1)
  }

  /** From the second round on the entries no longer change, and only a rival login still makes a difference. */
  lemma SecondRound(robot: Option<(string, string)>, a: map<string, Auth>, b: map<string, Auth>, shown: Auth -> string)
    requires AgreeBut(robot, a, b, shown) && (robot.Some? ==> HasLogin(a, robot.value.0, robot.value.1))
    ensures var next := NextAuths(robot, a, b, shown);
            && (Steady(robot, next, b, shown) <==> !Rival(robot, next, b, shown))
            && NextAuths(robot, next, b, shown) == next
            && (Rival(robot, next, b, shown) ==> !Steady(robot, a, b, shown))
            && (Rival(robot, next, b, shown) <==>
                  robot.Some? && robot.value.0 in b && !IsLogin(b[robot.value.0], robot.value.1)
                  && shown(a[robot.value.0]) != shown(b[robot.value.0])
                  && shown(Login(robot.value.1, "")) != shown(b[robot.value.0]))
  {
    var next := NextAuths(robot, a, b, shown);
    forall h | Replaces(next, b, shown, h) ensures robot.Some? && h == robot.value.0 {
      assert !Replaces(a, b, shown, h) || (robot.Some? && h == robot.value.0);
    }
    assert NextAuths(robot, next, b, shown) == next;
  }

  // ---------------------------------------------------------------- rounds

  /** Both sides of the merge can be read. */
  predicate Live(settings: Settings, w: World) {
    && !settings.custom
    && w.cluster.Some? && w.cluster.value.Document?
    && (w.operator.Some? ==> w.operator.value.Document?)
  }

  predicate Quiet(e: Effects) {
    e.writes == 0 && e.restarts == 0
  }

  /** Whether a round gets as far as the cluster secret. */
  predicate ReachesCluster(settings: Settings, w: World) {
    settings.updateService && w.linked.Some?
  }

  function Entries(content: Option<Content>): map<string, Auth> {
    if content.Some? && content.value.Document? then AuthsOf(content.value.config) else map[]
  }

  lemma OsusTwice(quay: Option<Quay>, w: World)
    ensures var once := OsusStep(quay, w);
            var twice := OsusStep(quay, once.world);
            Quiet(twice) && twice.world == once.world
    ensures OsusStep(quay, w).world.operator == w.operator
    ensures OsusStep(quay, w).world.linked.Some? <==> w.linked.Some?
  {
  }

  /** Without two readable sides the first round already leaves nothing to do. */
  lemma DeadRound(settings: Settings, shown: Auth -> string, w: World)
    requires !Live(settings, w)
    ensures var w1 := Round(settings, shown, w).world;
            !Live(settings, w1) && Quiet(Round(settings, shown, w1)) && Round(settings, shown, w1).world == w1
  {
    hide OsusStep;
    OsusTwice(settings.quay, w);
    OsusTwice(settings.quay, PullSecretStep(settings, shown, w).world);
  }

  /** What a round does to the entries while both sides can be read. */
  lemma LiveRound(settings: Settings, shown: Auth -> string, w: World)
    requires Live(settings, w) && w.operator.Some?
    ensures var e := Round(settings, shown, w);
            var robot, a, b := Robot(settings.quay), Entries(w.operator), Entries(w.cluster);
            && Live(settings, e.world) && e.world.operator.Some?
            && e.world.operator == (if Steady(robot, a, b, shown) then w.operator
                                    else Some(Marshal(w.operator.value.config.(auths := Some(NextAuths(robot, a, b, shown))))))
            && e.restarts == (if Steady(robot, a, b, shown) then 0 else 1)
            && e.world.cluster == (if ReachesCluster(settings, w) && robot.Some? && !HasLogin(b, robot.value.0, robot.value.1)
                                   then Some(Marshal(w.cluster.value.config.(auths := Some(b[robot.value.0 := Login(robot.value.1, "")]))))
                                   else w.cluster)
            && e.world.linked == (if ReachesCluster(settings, w) then Some(Linked(w.linked.value)) else w.linked)
            && e.world.osus == (if settings.updateService then e.world.operator else w.osus)
            && e.writes >= e.restarts
            && (e.world == w && e.restarts == 0 ==> Quiet(e))
  {
    hide Steady, NextAuths, Combined;
    CombinedMeaning(settings.quay, w.operator.value, w.cluster.value, shown);
  }

  /** The first round: the operator secret gets the source's entries and the robot login, whether it existed or not. */
  lemma FirstRound(settings: Settings, shown: Auth -> string, w: World)
    requires Live(settings, w)
    ensures var w1 := Round(settings, shown, w).world;
            var robot, a, b := Robot(settings.quay), Entries(w1.operator), Entries(w1.cluster);
            && Live(settings, w1) && w1.operator.Some?
            && a == NextAuths(robot, Entries(w.operator), Entries(w.cluster), shown)
            && SameBut(robot, b, Entries(w.cluster))
            && (if ReachesCluster(settings, w) then robot.Some? ==> HasLogin(b, robot.value.0, robot.value.1)
                else w1.cluster == w.cluster)
            && (w1.linked.Some? <==> w.linked.Some?)
  {
    hide Replaces, SomeReplaced, MergedAuths;
    var robot := Robot(settings.quay);
    if w.operator.Some? {
      LiveRound(settings, shown, w);
      if Steady(robot, Entries(w.operator), Entries(w.cluster), shown) {
        NothingReplaced(Entries(w.operator), Entries(w.cluster), shown);
      }
    } else {
      MergedIntoNothing(Entries(w.cluster), shown);
    }
  }

  lemma MergedIntoNothing(b: map<string, Auth>, shown: Auth -> string)
    ensures MergedAuths(map[], b, shown) == b
  {
  }

  /** The source keeps another login for the registry, and no round gets to put the robot's there: the update service
      is disabled or its account is missing. */
  ghost predicate Contested(settings: Settings, shown: Auth -> string, w: World) {
    var robot, a, b := Robot(settings.quay), Entries(w.operator), Entries(w.cluster);
    && Live(settings, w) && robot.Some? && !ReachesCluster(settings, w)
    && robot.value.0 in b && !IsLogin(b[robot.value.0], robot.value.1)
    && shown(b[robot.value.0]) != shown(Login(robot.value.1, ""))
    && !(HasLogin(a, robot.value.0, robot.value.1) && shown(a[robot.value.0]) == shown(b[robot.value.0]))
  }

  lemma RivalAfterFirst(robot: Option<(string, string)>, a: map<string, Auth>, b: map<string, Auth>, shown: Auth -> string)
    requires robot.Some? && robot.value.0 in b && !IsLogin(b[robot.value.0], robot.value.1)
    requires shown(b[robot.value.0]) != shown(Login(robot.value.1, ""))
    ensures var next := NextAuths(robot, a, b, shown);
            shown(next[robot.value.0]) == shown(b[robot.value.0]) <==>
            HasLogin(a, robot.value.0, robot.value.1) && shown(a[robot.value.0]) == shown(b[robot.value.0])
  {
  }

  lemma AgreementKept(robot: Option<(string, string)>, a: map<string, Auth>, b: map<string, Auth>, c: map<string, Auth>,
                      shown: Auth -> string)
    requires AgreeBut(robot, a, b, shown) && SameBut(robot, c, b)
    ensures AgreeBut(robot, a, c, shown)
  {
    forall h | robot.None? || h != robot.value.0 ensures Replaces(a, c, shown, h) <==> Replaces(a, b, shown, h) {
    }
  }

  /** The rounds after one that brought the entries together. */
  lemma LaterRounds(settings: Settings, shown: Auth -> string, w: World)
    requires Live(settings, w) && w.operator.Some?
    requires AgreeBut(Robot(settings.quay), Entries(w.operator), Entries(w.cluster), shown)
    requires var robot := Robot(settings.quay);
             robot.Some? ==>
               && HasLogin(Entries(w.operator), robot.value.0, robot.value.1)
               && (ReachesCluster(settings, w) ==> HasLogin(Entries(w.cluster), robot.value.0, robot.value.1))
    ensures var next := Round(settings, shown, w).world;
            var robot, e := Robot(settings.quay), Round(settings, shown, next);
            && e.world == next
            && Entries(next.operator) == NextAuths(robot, Entries(w.operator), Entries(w.cluster), shown)
            && Entries(next.cluster) == Entries(w.cluster)
            && (if Rival(robot, Entries(next.operator), Entries(next.cluster), shown) then e.restarts == 1 && e.writes > 0 else Quiet(e))
  {
    hide Round, NextAuths, Steady, AgreeBut, Rival, HasLogin;
    var robot, a, b := Robot(settings.quay), Entries(w.operator), Entries(w.cluster);
    LiveRound(settings, shown, w);
    SecondRound(robot, a, b, shown);
    if Steady(robot, a, b, shown) { SteadyNext(robot, a, b, shown); }
    LiveRound(settings, shown, Round(settings, shown, w).world);
  }

  lemma ThirdRound(settings: Settings, shown: Auth -> string, w: World)
    requires Live(settings, w)
    ensures var w2 := Round(settings, shown, Round(settings, shown, w).world).world;
            var e := Round(settings, shown, w2);
            && e.world == w2
            && (if Contested(settings, shown, w) then e.restarts == 1 && e.writes > 0 else Quiet(e))
  {
    hide Round, NextAuths, AgreeBut, SameBut;
    var robot, a0, b0 := Robot(settings.quay), Entries(w.operator), Entries(w.cluster);
    FirstRound(settings, shown, w);
    NextAgrees(robot, a0, b0, shown);
    var w1 := Round(settings, shown, w).world;
    AgreementKept(robot, Entries(w1.operator), b0, Entries(w1.cluster), shown);
    LaterRounds(settings, shown, w1);
    SecondRound(robot, Entries(w1.operator), Entries(w1.cluster), shown);
    if robot.Some? && robot.value.0 in b0 && !IsLogin(b0[robot.value.0], robot.value.1)
       && shown(b0[robot.value.0]) != shown(Login(robot.value.1, ""))
    {
      RivalAfterFirst(robot, a0, b0, shown);
    }
  }

  lemma SteadyNext(robot: Option<(string, string)>, a: map<string, Auth>, b: map<string, Auth>, shown: Auth -> string)
    requires Steady(robot, a, b, shown)
    ensures NextAuths(robot, a, b, shown) == a
  {
    NothingReplaced(a, b, shown);
  }

  // ---------------------------------------------------------------- the fixpoint

  lemma {:induction false} AfterTwo(settings: Settings, shown: Auth -> string, w: World, n: nat)
    requires n >= 2
    ensures After(settings, shown, w, n) == After(settings, shown, w, 2)
    ensures var e := Round(settings, shown, After(settings, shown, w, n));
            && e.world == After(settings, shown, w, 2)
            && (if Contested(settings, shown, w) then e.restarts == 1 && e.writes > 0 else Quiet(e))
  {
    hide Round;
    if n == 2 {
      var w1 := Round(settings, shown, w).world;
      assert After(settings, shown, w, 1) == w1;
      if Live(settings, w) {
        ThirdRound(settings, shown, w);
      } else {
        DeadRound(settings, shown, w);
      }
    } else {
      AfterTwo(settings, shown, w, n - 1);
    }
  }

  /** Whatever the secrets hold at first, two rounds settle their contents for good; from then on a round writes and
      restarts nothing, except in the contested case, where every round rewrites the operator secret and restarts the
      backend. */
  lemma SettledAfterTwoRounds(settings: Settings, shown: Auth -> string, w: World, n: nat)
    requires n >= 2
    ensures After(settings, shown, w, n) == After(settings, shown, w, 2)
    ensures Quiet(Round(settings, shown, After(settings, shown, w, n))) <==> !Contested(settings, shown, w)
    ensures Contested(settings, shown, w) ==> Round(settings, shown, After(settings, shown, w, n)).restarts == 1
    ensures ReachesCluster(settings, w) ==> Quiet(Round(settings, shown, After(settings, shown, w, n)))
  {
    hide Round;
    AfterTwo(settings, shown, w, n);
  }

  /** The contested case occurs: the cluster secret holds a person's login for the registry and the account of the
      update service is missing. */
  lemma RestartsEveryRound(n: nat)
    requires n >= 2
    ensures var settings := Settings(Some(Quay("quay.example", Some("robot"))), false, true);
            var cluster := Document(Config(Some(map["quay.example" := Login("person", "")]), ""), 0);
            var shown := (entry: Auth) => if entry.Login? then entry.auth else entry.text;
            Round(settings, shown, After(settings, shown, World(None, None, Some(cluster), None), n)).restarts == 1
  {
    hide Round, After;
    var settings := Settings(Some(Quay("quay.example", Some("robot"))), false, true);
    var cluster := Document(Config(Some(map["quay.example" := Login("person", "")]), ""), 0);
    var shown := (entry: Auth) => if entry.Login? then entry.auth else entry.text;
    assert "person"[0] != "robot"[0];
    assert Contested(settings, shown, World(None, None, Some(cluster), None));
    SettledAfterTwoRounds(settings, shown, World(None, None, Some(cluster), None), n);
  }

  /** The state after rounds in which any calls were refused. */
  ghost function AfterTries(settings: Settings, shown: Auth -> string, w: World, refusals: seq<set<Target>>): World {
    if |refusals| == 0 then w
    else RoundTry(settings, shown, AfterTries(settings, shown, w, refusals[..|refusals| - 1]), refusals[|refusals| - 1]).world
  }

  /** The host has the entry it had. */
  predicate Keeps(a: Option<Content>, b: Option<Content>, host: string) {
    host in Entries(a) ==> host in Entries(b) && Entries(b)[host] == Entries(a)[host]
  }

  /** No round drops an entry, whatever is refused in it: hosts that the source does not name keep theirs, and so does
      every host but the registry's in the cluster secret, which gains none either. */
  lemma {:induction false} HostsKept(settings: Settings, shown: Auth -> string, w: World, refusals: seq<set<Target>>, host: string)
    requires settings.quay.Some? ==> host != settings.quay.value.host
    ensures var after := AfterTries(settings, shown, w, refusals);
            && ((host in Entries(w.cluster) ==> settings.custom) ==> Keeps(w.operator, after.operator, host))
            && Keeps(w.cluster, after.cluster, host) && Keeps(after.cluster, w.cluster, host)
  {
    hide RoundTry, Entries;
    if |refusals| > 0 {
      var before := refusals[..|refusals| - 1];
      HostsKept(settings, shown, w, before, host);
      RoundKeeps(settings, shown, AfterTries(settings, shown, w, before), refusals[|refusals| - 1], host);
    }
  }

  lemma RoundKeeps(settings: Settings, shown: Auth -> string, w: World, refused: set<Target>, host: string)
    requires settings.quay.Some? ==> host != settings.quay.value.host
    ensures var after := RoundTry(settings, shown, w, refused).world;
            && ((host in Entries(w.cluster) ==> settings.custom) ==> Keeps(w.operator, after.operator, host))
            && Keeps(w.cluster, after.cluster, host) && Keeps(after.cluster, w.cluster, host)
  {
    hide PullSecretStep, ClusterStep, Entries;
    PullKeeps(settings, shown, w, host);
    var first := PullSecretTry(settings, shown, w, refused);
    ClusterKeeps(settings.quay, CopyTry(first.world, refused).world, host);
  }

  lemma PullKeeps(settings: Settings, shown: Auth -> string, w: World, host: string)
    requires settings.quay.Some? ==> host != settings.quay.value.host
    ensures var after := PullSecretStep(settings, shown, w).world;
            && ((host in Entries(w.cluster) ==> settings.custom) ==> Keeps(w.operator, after.operator, host))
            && after.cluster == w.cluster
  {
    if Live(settings, w) && w.operator.Some? {
      hide SomeReplaced, HasLogin, Combined;
      CombinedMeaning(settings.quay, w.operator.value, w.cluster.value, shown);
    }
  }

  lemma ClusterKeeps(quay: Option<Quay>, w: World, host: string)
    requires quay.Some? ==> host != quay.value.host
    ensures var after := ClusterStep(quay, w).world;
            && after.operator == w.operator && Keeps(w.cluster, after.cluster, host) && Keeps(after.cluster, w.cluster, host)
  {
  }

  /** However many calls were refused before, two rounds without a refusal settle everything. */
  lemma SettledAfterRefusals(settings: Settings, shown: Auth -> string, w: World, refusals: seq<set<Target>>, n: nat)
    requires n >= 2
    ensures var faulty := AfterTries(settings, shown, w, refusals);
            var e := RoundTry(settings, shown, After(settings, shown, faulty, n), {});
            && After(settings, shown, faulty, n) == AfterTries(settings, shown, w, refusals + [{}] + [{}])
            && (Quiet(e) <==> !Contested(settings, shown, faulty))
  {
    hide Round, RoundTry, Contested;
    var faulty := AfterTries(settings, shown, w, refusals);
    SettledAfterTwoRounds(settings, shown, faulty, n);
    NothingRefused(settings, shown, After(settings, shown, faulty, n));
    NothingRefused(settings, shown, faulty);
    NothingRefused(settings, shown, Round(settings, shown, faulty).world);
    assert (refusals + [{}])[..|refusals|] == refusals;
    assert (refusals + [{}] + [{}])[..|refusals| + 1] == refusals + [{}];
    assert After(settings, shown, faulty, 1) == Round(settings, shown, faulty).world;
  }

  // ---------------------------------------------------------------- what rounds leave on the account and in the secrets

  /** Over any rounds with any refused calls, the account keeps all its image pull secrets, in order; at most the copy's
      name is added behind them, and only when it was not there. */
  lemma {:induction false} AccountKept(settings: Settings, shown: Auth -> string, w: World, refusals: seq<set<Target>>)
    ensures var after := AfterTries(settings, shown, w, refusals);
            match w.linked
            case None => after.linked.None?
            case Some(names) =>
              && after.linked.Some? && names <= after.linked.value
              && (after.linked.value == names || ("pull-secret" !in names && after.linked.value == names + ["pull-secret"]))
  {
    hide RoundTry;
    if |refusals| > 0 {
      var before := refusals[..|refusals| - 1];
      AccountKept(settings, shown, w, before);
      RoundAccount(settings, shown, AfterTries(settings, shown, w, before), refusals[|refusals| - 1]);
    }
  }

  lemma RoundAccount(settings: Settings, shown: Auth -> string, w: World, refused: set<Target>)
    ensures var after := RoundTry(settings, shown, w, refused).world;
            match w.linked
            case None => after.linked.None?
            case Some(names) =>
              after.linked == Some(names) || ("pull-secret" !in names && after.linked == Some(names + ["pull-secret"]))
  {
    hide Combined, WithQuay;
  }

  /** The entries in a secret after a successful round, read off its text. */
  predicate LoggedIn(content: Option<Content>, host: string, login: string) {
    host in Entries(content) && Entries(content)[host].Login? && Entries(content)[host].auth == login
  }

  /** A round that succeeds, whatever calls it might have been refused, leaves the robot's login in the operator secret
      when that is a document, an entry that shows like the source's for each other host of the source, and, with the
      update service, an exact copy, linked to the account, and the login in the cluster secret. */
  lemma SuccessLeaves(settings: Settings, shown: Auth -> string, w: World, refused: set<Target>, host: string)
    requires RoundTry(settings, shown, w, refused).ok
    ensures var after := RoundTry(settings, shown, w, refused).world;
            && (!settings.custom ==> after.operator.Some?)
            && (!settings.custom && Robot(settings.quay).Some? && after.operator.value.Document? ==>
                  LoggedIn(after.operator, Robot(settings.quay).value.0, Robot(settings.quay).value.1))
            && (!settings.custom && host in Entries(w.cluster) && !(settings.quay.Some? && settings.quay.value.host == host) ==>
                  host in Entries(after.operator) && shown(Entries(after.operator)[host]) == shown(Entries(w.cluster)[host]))
            && (settings.updateService ==>
                  && after.osus == after.operator && after.operator.Some?
                  && after.linked.Some? && "pull-secret" in after.linked.value
                  && (Robot(settings.quay).Some? ==>
                        LoggedIn(after.cluster, Robot(settings.quay).value.0, Robot(settings.quay).value.1)))
  {
    hide Combined, MergedAuths, SomeReplaced, Replaces;
    if !settings.custom { OperatorLeft(settings, shown, w, host); }
    if settings.updateService { ServiceLeft(settings.quay, PullSecretTry(settings, shown, w, refused).world, refused); }
  }

  /** The backend is restarted at most once a round: always when the content of an existing operator secret changes, and
      never for a new one or one of the user's own. A round without writes changes nothing. */
  lemma RestartsExactly(settings: Settings, shown: Auth -> string, w: World)
    ensures var e := Round(settings, shown, w);
            && e.restarts <= 1
            && (e.writes == 0 ==> e.world == w)
            && (settings.custom || w.operator.None? ==> e.restarts == 0)
            && (settings.custom ==> e.world.operator == w.operator)
            && (w.operator.Some? && e.world.operator != w.operator ==> e.restarts == 1)
            && (w.operator.Some? && e.restarts == 0 ==> e.world.operator == w.operator)
  {
    hide Combined;
  }

  lemma OperatorLeft(settings: Settings, shown: Auth -> string, w: World, host: string)
    requires PullSecretStep(settings, shown, w).ok && !settings.custom
    ensures var after := PullSecretStep(settings, shown, w).world;
            && after.operator.Some?
            && (Robot(settings.quay).Some? && after.operator.value.Document? ==>
                  LoggedIn(after.operator, Robot(settings.quay).value.0, Robot(settings.quay).value.1))
            && (host in Entries(w.cluster) && !(settings.quay.Some? && settings.quay.value.host == host) ==>
                  host in Entries(after.operator) && shown(Entries(after.operator)[host]) == shown(Entries(w.cluster)[host]))
  {
    if w.operator.Some? {
      hide Combined;
      if w.operator.value.Document? && w.cluster.value.Document? {
        var a, b := Entries(w.operator), Entries(w.cluster);
        CombinedMeaning(settings.quay, w.operator.value, w.cluster.value, shown);
        if !SomeReplaced(a, b, shown) { assert !Replaces(a, b, shown, host); }
        assert host in b ==> host in MergedAuths(a, b, shown) && shown(MergedAuths(a, b, shown)[host]) == shown(b[host]);
      }
    }
  }

  lemma ServiceLeft(quay: Option<Quay>, w: World, refused: set<Target>)
    requires OsusTry(quay, w, refused).ok
    ensures var after := OsusTry(quay, w, refused).world;
            && after.operator == w.operator && after.osus == w.operator && w.operator.Some?
            && after.linked.Some? && "pull-secret" in after.linked.value
            && (Robot(quay).Some? ==> LoggedIn(after.cluster, Robot(quay).value.0, Robot(quay).value.1))
  {
  }
}
