/**
 The mutating webhook of internal/webhook/sidecar_injector.go: what it does to a pod, and
 whether the sidecar then sees the application's database file.
 */
module Injector {
  import opened Wrappers
  import opened LitestreamConfig
  import ConfigRef

  datatype Mount = Mount(volume: string, path: string)
  datatype Container = Container(name: string, mounts: seq<Mount>)
  datatype Volume = Volume(name: string, configMap: string)

  /** The parts of a pod that the webhook reads or changes. */
  datatype PodSpec = PodSpec(
    annotations: map<string, string>, inits: seq<Container>, containers: seq<Container>, volumes: seq<Volume>)

  datatype Replica = Replica(name: string, spec: ReplicaSpec, skip: bool)

  const SIDECAR := "litestream"
  const CONFIG_VOLUME := "litestream-config"
  const CONFIG_MOUNT := "/etc/litestream"
  const ARCHIVE_CHECK := "litestream-archive-check"
  const AUTO_RESTORE := "litestream-restore"
  const DB_INIT := "db-init"
  const INIT_SQL_VOLUME := "db-init-sql"
  const INJECT := "litestream.io/inject"
  const CONFIG := "litestream.io/config"

  // ---- findVolumeForPath ----

  predicate Covers(mountPath: string, dbPath: string) {
    mountPath == dbPath || HasPrefix(dbPath, mountPath + "/")
  }

  /** The first of the mounts that covers the path. */
  function FirstCovering(mounts: seq<Mount>, dbPath: string): Option<string> {
    if mounts == [] then None
    else if Covers(mounts[0].path, dbPath) then Some(mounts[0].volume)
    else FirstCovering(mounts[1..], dbPath)
  }

  function DataVolume(pod: PodSpec, dbPath: string): Option<string> {
    if pod.containers == [] then None else FirstCovering(pod.containers[0].mounts, dbPath)
  }

  /** The search finds the earliest covering mount, and fails exactly when there is none. */
  method FindVolumeForPath(containers: seq<Container>, dbPath: string) returns (r: Option<string>)
    ensures r.None? <==> containers == [] || forall m | m in containers[0].mounts :: !Covers(m.path, dbPath)
    ensures r.Some? ==> exists i | 0 <= i < |containers[0].mounts| ::
                && Covers(containers[0].mounts[i].path, dbPath)
                && r.value == containers[0].mounts[i].volume
                && forall j | 0 <= j < i :: !Covers(containers[0].mounts[j].path, dbPath)
    ensures containers != [] ==> r == FirstCovering(containers[0].mounts, dbPath)
  {
    if containers == [] {
      return None;
    }
    var mounts := containers[0].mounts;
    var i := 0;
    while i < |mounts|
      invariant 0 <= i <= |mounts|
      invariant forall j | 0 <= j < i :: !Covers(mounts[j].path, dbPath)
      invariant FirstCovering(mounts, dbPath) == FirstCovering(mounts[i..], dbPath)
    {
      if Covers(mounts[i].path, dbPath) {
        return Some(mounts[i].volume);
      }
      i := i + 1;
    }
    return None;
  }

  // ---- inject ----

  function SidecarContainer(db: Replica, volume: string): Container {
    Container(SIDECAR, [Mount(volume, db.spec.databasePath), Mount(CONFIG_VOLUME, CONFIG_MOUNT)])
  }

  function StartupContainer(name: string, db: Replica, volume: string): Container {
    Container(name, [Mount(volume, db.spec.databasePath), Mount(CONFIG_VOLUME, CONFIG_MOUNT)])
  }

  function DbInitContainer(db: Replica, volume: string): Container {
    Container(DB_INIT, [Mount(volume, db.spec.databasePath), Mount(INIT_SQL_VOLUME, "/init")])
  }

  /** The container that runs before everything else, if any. */
  function Guards(db: Replica, volume: string): seq<Container> {
    if !db.spec.backupEnabled then []
    else if db.spec.autoRestore then [StartupContainer(AUTO_RESTORE, db, volume)]
    else if !db.skip then [StartupContainer(ARCHIVE_CHECK, db, volume)]
    else []
  }

  function DbInits(db: Replica, volume: string): seq<Container> {
    if db.spec.initSQL == "" then [] else [DbInitContainer(db, volume)]
  }

  /** The annotations with those for the metrics scraper. */
  function Scraped(m: map<string, string>): map<string, string> {
    m["prometheus.io/scrape" := "true"]["prometheus.io/port" := "9090"]["prometheus.io/path" := "/metrics"]
  }

  /** Init containers: optional guard, the pod's own, optional db-init. Containers: the pod's own, the sidecar. */
  function Injected(pod: PodSpec, db: Replica, volume: string): PodSpec {
    PodSpec(
      Scraped(pod.annotations),
      Guards(db, volume) + pod.inits + DbInits(db, volume),
      pod.containers + [SidecarContainer(db, volume)],
      pod.volumes + [Volume(CONFIG_VOLUME, db.name + "-litestream")] +
      (if db.spec.initSQL == "" then [] else [Volume(INIT_SQL_VOLUME, db.name + "-init-sql")]))
  }

  /** The pod's own init containers are all there, in one block. */
  predicate OwnInits(own: seq<Container>, inits: seq<Container>, first: nat) {
    first + |own| <= |inits| && inits[first..first + |own|] == own
  }

  /**
   The pod keeps its own init containers, containers and volumes, in their order. At most one
   container comes before its init containers: archive-check exactly with backup on, auto-restore
   off and skip unset, the restore container exactly with backup and auto-restore on. db-init
   comes after them exactly with init SQL. Exactly one container is added, the sidecar.
   */
  lemma InjectedContainers(pod: PodSpec, db: Replica, volume: string)
    ensures var r := Injected(pod, db, volume);
            var n := if db.spec.backupEnabled && (db.spec.autoRestore || !db.skip) then 1 else 0;
            && OwnInits(pod.inits, r.inits, n)
            && |r.inits| == n + |pod.inits| + (if db.spec.initSQL != "" then 1 else 0)
            && (n == 1 ==> r.inits[0].name == if db.spec.autoRestore then "litestream-restore"
                           else "litestream-archive-check")
            && (db.spec.initSQL != "" ==> r.inits[|r.inits| - 1].name == "db-init")
    ensures var r := Injected(pod, db, volume);
            && |r.containers| == |pod.containers| + 1 && r.containers[..|pod.containers|] == pod.containers
            && r.containers[|pod.containers|].name == "litestream"
  {
    var r := Injected(pod, db, volume);
    var n := if db.spec.backupEnabled && (db.spec.autoRestore || !db.skip) then 1 else 0;
    assert |Guards(db, volume)| == n;
    assert r.inits[n..n + |pod.inits|] == pod.inits;
  }

  /** What every added container mounts: the chosen volume at the database path, and its ConfigMap. */
  lemma InjectedMounts(pod: PodSpec, db: Replica, volume: string)
    ensures var r := Injected(pod, db, volume);
            && (db.spec.backupEnabled && (db.spec.autoRestore || !db.skip) ==> r.inits[0].mounts == [
                    Mount(volume, db.spec.databasePath), Mount("litestream-config", "/etc/litestream")])
            && (db.spec.initSQL != "" ==> r.inits[|r.inits| - 1].mounts == [
                    Mount(volume, db.spec.databasePath), Mount("db-init-sql", "/init")])
            && r.containers[|pod.containers|].mounts == [
                 Mount(volume, db.spec.databasePath), Mount("litestream-config", "/etc/litestream")]
  {
  }

  /** The pod keeps its volumes and gets those of the replica's ConfigMaps; it keeps its other annotations. */
  lemma InjectedVolumes(pod: PodSpec, db: Replica, volume: string)
    ensures var r, n := Injected(pod, db, volume).volumes, |pod.volumes|;
            && |r| == n + 1 + (if db.spec.initSQL != "" then 1 else 0) && r[..n] == pod.volumes
            && r[n] == Volume("litestream-config", db.name + "-litestream")
            && (db.spec.initSQL != "" ==> r[n + 1] == Volume("db-init-sql", db.name + "-init-sql"))
    ensures var a := Injected(pod, db, volume).annotations;
            && a["prometheus.io/scrape" := "true"] == a && a["prometheus.io/port" := "9090"] == a
            && a["prometheus.io/path" := "/metrics"] == a
            && forall k | k !in {"prometheus.io/scrape", "prometheus.io/port", "prometheus.io/path"} ::
                 (k in a <==> k in pod.annotations) && (k in pod.annotations ==> a[k] == pod.annotations[k])
  {
  }

  class Pod {
    var annotations: map<string, string>
    var inits: seq<Container>
    var containers: seq<Container>
    var volumes: seq<Volume>

    function View(): PodSpec
      reads this
    {
      PodSpec(annotations, inits, containers, volumes)
    }

    constructor (view: PodSpec)
      ensures View() == view
    {
      annotations, inits, containers, volumes := view.annotations, view.inits, view.containers, view.volumes;
    }

    method AlreadyInjected() returns (b: bool)
      ensures b <==> exists c | c in containers :: c.name == SIDECAR
    {
      for i := 0 to |containers|
        invariant forall j | 0 <= j < i :: containers[j].name != SIDECAR
      {
        if containers[i].name == SIDECAR {
          return true;
        }
      }
      return false;
    }

    method PrependInit(c: Container)
      modifies `inits
      ensures inits == [c] + old(inits)
    {
      inits := [c] + inits;
    }

    method InjectInitContainer(db: Replica, volume: string)
      modifies `inits, `volumes
      ensures inits == old(inits) + [DbInitContainer(db, volume)]
      ensures volumes == old(volumes) + [Volume(INIT_SQL_VOLUME, db.name + "-init-sql")]
    {
      inits := inits + [DbInitContainer(db, volume)];
      volumes := volumes + [Volume(INIT_SQL_VOLUME, db.name + "-init-sql")];
    }

    /** An error leaves the pod as it was; success gives exactly the injected shape. */
    method Inject(db: Replica) returns (ok: bool)
      modifies this
      ensures ok <==> DataVolume(old(View()), db.spec.databasePath).Some?
      ensures View() == if ok
                        then Injected(old(View()), db, DataVolume(old(View()), db.spec.databasePath).value)
                        else old(View())
    {
      var found := FindVolumeForPath(containers, db.spec.databasePath);
      if found.None? {
        return false;
      }
      var volume := found.value;
      containers := containers + [SidecarContainer(db, volume)];
      volumes := volumes + [Volume(CONFIG_VOLUME, db.name + "-litestream")];
      annotations := Scraped(annotations);
      if db.spec.backupEnabled {
        if db.spec.autoRestore {
          PrependInit(StartupContainer(AUTO_RESTORE, db, volume));
        } else if !db.skip {
          PrependInit(StartupContainer(ARCHIVE_CHECK, db, volume));
        }
      }
      if db.spec.initSQL != "" {
        InjectInitContainer(db, volume);
      }
      ok := true;
    }
  }

  // ---- Handle ----

  datatype Response = Allowed | Errored | Patched

  predicate HasSidecar(pod: PodSpec) { exists c | c in pod.containers :: c.name == SIDECAR }

  /** The replicas that the API server serves, by namespace and name. */
  type Served = map<ConfigRef.Ref, Replica>

  function Value(m: map<string, string>, k: string): string { if k in m then m[k] else "" }

  /** Which replica the pod's config reference names: Some(None) without a reference, None for an error. */
  function Resolve(ref: string, namespace: string, served: Served): Option<Option<Replica>> {
    if ref == "" then Some(None)
    else if '/' !in ref then None
    else
      var r := ConfigRef.Points(ref, namespace);
      if r in served then Some(Some(served[r])) else None
  }

  function Handled(pod: PodSpec, namespace: string, served: Served): (Response, PodSpec) {
    if Value(pod.annotations, INJECT) != "true" || HasSidecar(pod) then (Allowed, pod)
    else
      var db := Resolve(Value(pod.annotations, CONFIG), namespace, served);
      if db.None? then (Errored, pod)
      else if db.value.None? then (Allowed, pod)
      else
        var volume := DataVolume(pod, db.value.value.spec.databasePath);
        if volume.None? then (Errored, pod) else (Patched, Injected(pod, db.value.value, volume.value))
  }

  method ResolveLitestreamReplica(pod: Pod, namespace: string, served: Served) returns (db: Option<Option<Replica>>)
    ensures db == Resolve(Value(pod.annotations, CONFIG), namespace, served)
  {
    var r := ConfigRef.ResolveByCut(Value(pod.annotations, CONFIG), namespace);
    match r {
      case Absent => return Some(None);
      case Malformed => return None;
      case At(ref) => return if ref in served then Some(Some(served[ref])) else None;
    }
  }

  method Handle(pod: Pod, namespace: string, served: Served) returns (r: Response)
    modifies pod
    ensures (r, pod.View()) == Handled(old(pod.View()), namespace, served)
  {
    if INJECT !in pod.annotations || pod.annotations[INJECT] != "true" {
      return Allowed;
    }
    var injected := pod.AlreadyInjected();
    if injected {
      return Allowed;
    }
    var db := ResolveLitestreamReplica(pod, namespace, served);
    if db.None? {
      return Errored;
    }
    if db.value.None? {
      return Allowed;
    }
    var ok := pod.Inject(db.value.value);
    r := if ok then Patched else Errored;
  }

  /** The pod asks for injection and has not been injected. */
  predicate Asks(pod: PodSpec) {
    && "litestream.io/inject" in pod.annotations && pod.annotations["litestream.io/inject"] == "true"
    && forall c | c in pod.containers :: c.name != "litestream"
  }

  predicate HasReference(pod: PodSpec) {
    "litestream.io/config" in pod.annotations && pod.annotations["litestream.io/config"] != ""
  }

  /** The replica that a namespace/name reference names is served, as `db`. */
  ghost predicate Names(pod: PodSpec, namespace: string, served: Served, db: Replica) {
    exists ns: string, name: string :: '/' !in ns && Refers(pod, ns, name) &&
      var ref := ConfigRef.Ref(if ns == "" then namespace else ns, name);
      ref in served && served[ref] == db
  }

  predicate Refers(pod: PodSpec, ns: string, name: string) {
    "litestream.io/config" in pod.annotations && pod.annotations["litestream.io/config"] == ns + "/" + name
  }

  /**
   Which answer a pod gets: allowed exactly if it does not ask or has no reference; patched exactly
   if its reference names a replica that is served and a mount covers the database path; an error
   otherwise. So a pod that asks and has a reference never starts without its sidecar.
   */
  lemma HandledExact(pod: PodSpec, namespace: string, served: Served)
    ensures Handled(pod, namespace, served).0.Allowed? <==> !Asks(pod) || !HasReference(pod)
    ensures Handled(pod, namespace, served).0.Patched? <==>
              && Asks(pod) && HasReference(pod)
              && exists db :: Names(pod, namespace, served, db) && DataVolume(pod, db.spec.databasePath).Some?
  {
    if Asks(pod) && HasReference(pod) {
      var ref := pod.annotations[CONFIG];
      if '/' in ref {
        var k := ConfigRef.FirstSlash(ref);
        assert ref[..|ref|] == ref;
        assert ref == ref[..k] + "/" + ref[k + 1..];
        NamedOnly(pod, ref[..k], ref[k + 1..], namespace, served);
      }
      forall ns: string, name: string | '/' !in ns && Refers(pod, ns, name)
        ensures '/' in ref
      {
        assert ref[|ns|] == '/';
      }
    }
  }

  /** A reference is split in one way only. */
  lemma NamedOnly(pod: PodSpec, ns: string, name: string, namespace: string, served: Served)
    requires '/' !in ns && Refers(pod, ns, name)
    ensures var ref := ConfigRef.Ref(if ns == "" then namespace else ns, name);
            && Resolve(Value(pod.annotations, CONFIG), namespace, served) ==
                 (if ref in served then Some(Some(served[ref])) else None)
            && forall db :: Names(pod, namespace, served, db) <==> ref in served && served[ref] == db
  {
    ConfigRef.PointsExact(ns, name, namespace);
    forall other: string, rest: string | '/' !in other && Refers(pod, other, rest)
      ensures other == ns && rest == name
    {
      ConfigRef.SplitOnce(ns, name, other, rest);
    }
  }

  /**
   A patched pod is simply allowed the second time and stays as it is, whatever the replicas are
   by then; a pod that was not patched is unchanged.
   */
  lemma HandleIdempotent(pod: PodSpec, namespace: string, served: Served, later: Served)
    ensures var (r, p) := Handled(pod, namespace, served);
            if r.Patched? then Handled(p, namespace, later) == (Allowed, p) else p == pod
  {
  }

  /** Every mount names a declared volume. */
  predicate Declared(c: Container, volumes: seq<Volume>) {
    forall m | m in c.mounts :: exists v | v in volumes :: v.name == m.volume
  }

  predicate WellMounted(pod: PodSpec) {
    forall c | c in pod.inits + pod.containers :: Declared(c, pod.volumes)
  }

  lemma DeclaredMore(c: Container, volumes: seq<Volume>, more: seq<Volume>)
    requires Declared(c, volumes)
    ensures Declared(c, volumes + more)
  {
  }

  lemma {:induction false} FirstCoveringIsMount(mounts: seq<Mount>, dbPath: string)
    requires FirstCovering(mounts, dbPath).Some?
    ensures exists m | m in mounts :: m.volume == FirstCovering(mounts, dbPath).value && Covers(m.path, dbPath)
  {
    if Covers(mounts[0].path, dbPath) {
      assert mounts[0] in mounts;
    } else {
      FirstCoveringIsMount(mounts[1..], dbPath);
      var m :| m in mounts[1..] && m.volume == FirstCovering(mounts[1..], dbPath).value && Covers(m.path, dbPath);
      assert m in mounts;
    }
  }

  predicate HasVolume(volumes: seq<Volume>, name: string) {
    exists v | v in volumes :: v.name == name
  }

  lemma AddedVolumes(pod: PodSpec, db: Replica, volume: string)
    requires HasVolume(pod.volumes, volume)
    ensures var vs := Injected(pod, db, volume).volumes;
            && HasVolume(vs, volume) && HasVolume(vs, CONFIG_VOLUME)
            && (db.spec.initSQL != "" ==> HasVolume(vs, INIT_SQL_VOLUME))
  {
  }

  lemma AddedDeclared(c: Container, db: Replica, volume: string, vs: seq<Volume>)
    requires c in Guards(db, volume) + DbInits(db, volume) + [SidecarContainer(db, volume)]
    requires HasVolume(vs, volume) && HasVolume(vs, CONFIG_VOLUME)
    requires db.spec.initSQL != "" ==> HasVolume(vs, INIT_SQL_VOLUME)
    ensures Declared(c, vs)
  {
  }

  /** Injection into a pod whose mounts are all declared yields a pod whose mounts are all declared. */
  lemma InjectedWellMounted(pod: PodSpec, db: Replica)
    requires WellMounted(pod) && DataVolume(pod, db.spec.databasePath).Some?
    ensures WellMounted(Injected(pod, db, DataVolume(pod, db.spec.databasePath).value))
  {
    var volume := DataVolume(pod, db.spec.databasePath).value;
    var r := Injected(pod, db, volume);
    FirstCoveringIsMount(pod.containers[0].mounts, db.spec.databasePath);
    assert pod.containers[0] in pod.inits + pod.containers;
    AddedVolumes(pod, db, volume);
    var added := r.volumes[|pod.volumes|..];
    assert r.volumes == pod.volumes + added;
    forall c | c in r.inits + r.containers
      ensures Declared(c, r.volumes)
    {
      if c in pod.inits + pod.containers {
        DeclaredMore(c, pod.volumes, added);
      } else {
        AddedDeclared(c, db, volume, r.volumes);
      }
    }
  }

  // ---- Do application and sidecar see the same file? ----

  /** A mount makes a file's path resolve inside its volume; the root mount reaches every path. */
  predicate Under(mountPath: string, file: string) {
    mountPath == "/" || mountPath == file || HasPrefix(file, mountPath + "/")
  }

  function Relative(mountPath: string, file: string): string
    requires Under(mountPath, file) && file != ""
  {
    if mountPath == "/" then file[1..]
    else if mountPath == file then ""
    else file[|mountPath| + 1..]
  }

  /** The mount that decides where a path resolves: the innermost one over it. */
  predicate Innermost(mounts: seq<Mount>, m: Mount, file: string) {
    && m in mounts && Under(m.path, file)
    && forall o | o in mounts && Under(o.path, file) :: |o.path| <= |m.path|
  }

  /** A database path as the CRs write it: not empty, no trailing slash. */
  predicate Plain(dbPath: string) {
    dbPath != "" && dbPath[|dbPath| - 1] != '/'
  }

  /**
   The injected sidecar resolves the database file in the chosen volume, directly under its
   root, as long as the config mount is not in the way.
   */
  lemma SidecarFile(db: Replica, volume: string)
    requires Plain(db.spec.databasePath) && db.spec.databasePath != CONFIG_MOUNT
    requires Under(CONFIG_MOUNT, DbPath(db.spec)) ==> |CONFIG_MOUNT| <= |db.spec.databasePath|
    ensures var m := Mount(volume, db.spec.databasePath);
            Innermost(SidecarContainer(db, volume).mounts, m, DbPath(db.spec)) &&
            Relative(m.path, DbPath(db.spec)) == db.spec.databaseName
  {
  }

  /**
   With no application mount below the database path over the file, and the config mount not in
   the way, application and sidecar resolve the database file to the same place exactly when the
   application's innermost mount is at the database path itself and carries the volume that the
   first-match search picked. `m` and `n` are the innermost mounts of the two.
   */
  lemma SameFile(mounts: seq<Mount>, m: Mount, n: Mount, volume: string, db: Replica)
    requires Plain(db.spec.databasePath) && db.spec.databasePath != CONFIG_MOUNT
    requires Under(CONFIG_MOUNT, DbPath(db.spec)) ==> |CONFIG_MOUNT| <= |db.spec.databasePath|
    requires Innermost(mounts, m, DbPath(db.spec)) && |m.path| <= |db.spec.databasePath|
    requires FirstCovering(mounts, db.spec.databasePath) == Some(volume)
    requires Innermost(SidecarContainer(db, volume).mounts, n, DbPath(db.spec))
    ensures var file := DbPath(db.spec);
            (m.volume, Relative(m.path, file)) == (n.volume, Relative(n.path, file)) <==>
              m.path == db.spec.databasePath && m.volume == volume
  {
    SidecarFile(db, volume);
    SidecarMount(db, volume, n);
    var file, p := DbPath(db.spec), db.spec.databasePath;
    assert file[..|p|] == p;
    if m.path != "/" {
      assert file[..|m.path| + 1] == m.path + "/";
      assert file[..|m.path|] == m.path;
    }
  }

  /** The sidecar's innermost mount is the data mount. */
  lemma SidecarMount(db: Replica, volume: string, n: Mount)
    requires Plain(db.spec.databasePath) && db.spec.databasePath != CONFIG_MOUNT
    requires Under(CONFIG_MOUNT, DbPath(db.spec)) ==> |CONFIG_MOUNT| <= |db.spec.databasePath|
    requires Innermost(SidecarContainer(db, volume).mounts, n, DbPath(db.spec))
    ensures n == Mount(volume, db.spec.databasePath)
  {
    SidecarFile(db, volume);
    var file, p := DbPath(db.spec), db.spec.databasePath;
    assert file[..|p|] == p;
  }

  /**
   A parent mount is accepted by the search but splits the two: the application's file lies in a
   directory of the volume, the sidecar looks for it at the volume's root.
   */
  lemma ParentMountSplits(volume: string, parent: string, dir: string, db: Replica)
    requires parent != "" && parent != "/" && Plain(parent + "/" + dir)
    requires db.spec.databasePath == parent + "/" + dir
    ensures var mounts := [Mount(volume, parent)];
            && FirstCovering(mounts, db.spec.databasePath) == Some(volume)
            && Innermost(mounts, mounts[0], DbPath(db.spec))
            && Relative(parent, DbPath(db.spec)) == dir + "/" + db.spec.databaseName != db.spec.databaseName
  {
  }
}
