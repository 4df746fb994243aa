/**
 The init containers that the webhook injects, as programs over the data volume, and what a pod
 does with them: run them in order, restart the one that fails, start over when recreated.
 */
module StartGuard {
  import opened Wrappers
  import opened LitestreamConfig
  import opened Injector

  /** The data volume: database file, litestream state directory, probe file, db-init markers,
      and, as history, the SQL texts that were run against the database. */
  datatype Disk = Disk(
    db: Option<string>, stateDir: bool, probe: Option<string>, markers: set<string>, executed: seq<string>)

  /** How `litestream restore -if-replica-exists` ends; a failing restore may leave a partial file. */
  datatype Probe = Restorable(content: string) | NoBackup | RestoreError(partial: Option<string>)

  /** A run of a container: it exits, or is killed before it does. */
  datatype Result = Exit(code: nat) | Killed

  // ---- archive-check ----

  /** Nothing proves that this database was ever replicated from this volume. */
  predicate Untracked(d: Disk) { d.db.None? || !d.stateDir }

  class DataVolume {
    var d: Disk

    constructor (disk: Disk)
      ensures d == disk
    {
      d := disk;
    }

    /** The archive-check script; `life` is how many file commands it gets to run. */
    method ArchiveCheck(s3: Probe, life: nat) returns (r: Result)
      modifies this
      ensures d == old(d).(probe := d.probe)
      ensures r.Exit? ==> r.code == (if (old(d).db.Some? && old(d).stateDir) || s3.NoBackup? then 0 else 1)
      ensures r.Exit? && (old(d).db.None? || !old(d).stateDir) ==> d.probe.None?
      ensures life >= 3 ==> r.Exit?
      ensures (d, r) == ArchiveCheckRun(old(d), s3, life)
    {
      if d.db.Some? {
        if d.stateDir {
          return Exit(0);
        }
      }
      if life < 1 { return Killed; }
      d := d.(probe := None);
      if life < 2 { return Killed; }
      var restoreExit;
      match s3 {
        case Restorable(content) => d, restoreExit := d.(probe := Some(content)), 0;
        case NoBackup => restoreExit := 0;
        case RestoreError(partial) => d, restoreExit := d.(probe := partial), 1;
      }
      if restoreExit != 0 {
        if life < 3 { return Killed; }
        d := d.(probe := None);
        return Exit(1);
      }
      if d.probe.Some? {
        if life < 3 { return Killed; }
        d := d.(probe := None);
        return Exit(1);
      }
      return Exit(0);
    }

    /** The db-init script: the SQL runs unless its marker exists; the marker follows in any case. */
    method DbInit(sql: string, hash: string -> string)
      modifies this
      ensures d == DbInitRun(old(d), sql, hash)
    {
      var marker := hash(sql);
      if marker !in d.markers {
        d := d.(executed := d.executed + [sql]);
        d := d.(markers := d.markers + {marker});
      }
    }

    /**
     The auto-restore script. It blocks exactly when it restored a file itself, sqlite3 is there
     to look at it, and the check fails; the file stays. What a failing restore left behind stays
     too, unchecked, and the pod starts on it.
     */
    method AutoRestore(s3: Probe, haveSqlite: bool, sound: string -> bool) returns (code: nat)
      modifies this
      ensures code == 1 <==> old(d).db.None? && s3.Restorable? && haveSqlite && !sound(s3.content)
      ensures code <= 1
      ensures d == old(d).(db := if old(d).db.Some? then old(d).db else
                                   match s3
                                   case Restorable(content) => Some(content)
                                   case NoBackup => None
                                   case RestoreError(partial) => partial)
    {
      if d.db.Some? {
        return 0;
      }
      match s3 {
        case RestoreError(partial) =>
          d := d.(db := partial);
          return 0;
        case NoBackup =>
        case Restorable(content) => d := d.(db := Some(content));
      }
      if d.db.None? {
        return 0;
      }
      if !haveSqlite {
        return 0;
      }
      if !sound(d.db.value) {
        return 1;
      }
      return 0;
    }

    /** The gate holds for one run only: a second run finds the unsound file and lets the pod start. */
    method AutoRestoreTwice(content: string, s3: Probe, sound: string -> bool) returns (first: nat, second: nat)
      requires d.db.None? && !sound(content)
      modifies this
      ensures first == 1 && second == 0 && d.db == Some(content)
    {
      first := AutoRestore(Restorable(content), true, sound);
      second := AutoRestore(s3, true, sound);
    }
  }

  function ArchiveCheckRun(d: Disk, s3: Probe, life: nat): (Disk, Result) {
    if !Untracked(d) then (d, Exit(0))
    else if life < 1 then (d, Killed)
    else
      var clean := d.(probe := None);
      if life < 2 then (clean, Killed)
      else match s3
        case NoBackup => (clean, Exit(0))
        case Restorable(content) => if life < 3 then (clean.(probe := Some(content)), Killed) else (clean, Exit(1))
        case RestoreError(partial) => if life < 3 then (clean.(probe := partial), Killed) else (clean, Exit(1))
  }

  // ---- A pod starting ----

  /** `next` is the init container to run; `ran` are the names of all containers started so far. */
  datatype Boot = Boot(disk: Disk, s3: nat, next: nat, ran: seq<string>)

  /**
   What happens next: the pod is recreated, or its next container (or, after the last init
   container, all of its containers) runs. `probe` and `life` concern archive-check; any other
   container may leave `disk` and `s3` as it likes and ends with `code`.
   */
  datatype Event = Recreate | Run(probe: Probe, life: nat, disk: Disk, s3: nat, code: nat)

  function Names(cs: seq<Container>): seq<string> {
    seq(|cs|, i requires 0 <= i < |cs| => cs[i].name)
  }

  function Step(pod: PodSpec, b: Boot, e: Event): Boot {
    match e
    case Recreate => b.(next := 0)
    case Run(probe, life, disk, s3, code) =>
      if b.next >= |pod.inits| then
        Boot(disk, s3, b.next, b.ran + Names(pod.containers))
      else
        var name := pod.inits[b.next].name;
        if name == ARCHIVE_CHECK then
          var (d, r) := ArchiveCheckRun(b.disk, probe, life);
          Boot(d, b.s3, if r == Exit(0) then b.next + 1 else b.next, b.ran + [name])
        else
          Boot(disk, s3, if code == 0 then b.next + 1 else b.next, b.ran + [name])
  }

  function Steps(pod: PodSpec, b: Boot, es: seq<Event>): Boot {
    if es == [] then b
    else var n := |es| - 1; Step(pod, Steps(pod, b, es[..n]), es[n])
  }

  /** The backup has something to lose, or cannot be read, every time it is asked. */
  predicate Threatened(es: seq<Event>) {
    forall e | e in es && e.Run? :: !e.probe.NoBackup?
  }

  /** The webhook put archive-check in front of everything. */
  predicate Guarded(db: Replica) {
    db.spec.backupEnabled && !db.spec.autoRestore && !db.skip
  }

  lemma GuardComesFirst(pod: PodSpec, db: Replica, volume: string)
    ensures Guarded(db) ==>
              Injected(pod, db, volume).inits != [] && Injected(pod, db, volume).inits[0].name == ARCHIVE_CHECK
  {
  }

  /** Still at the guard, volume and backup untouched, nothing but the guard ever started. */
  predicate Blocked(start: Boot, b: Boot) {
    && b.next == 0
    && b.disk == start.disk.(probe := b.disk.probe)
    && b.s3 == start.s3
    && |start.ran| <= |b.ran| && b.ran[..|start.ran|] == start.ran
    && forall i | |start.ran| <= i < |b.ran| :: b.ran[i] == ARCHIVE_CHECK
  }

  lemma BlockedStep(pod: PodSpec, start: Boot, b: Boot, e: Event)
    requires pod.inits != [] && pod.inits[0].name == ARCHIVE_CHECK
    requires Untracked(start.disk) && Blocked(start, b)
    requires e.Run? ==> !e.probe.NoBackup?
    ensures Blocked(start, Step(pod, b, e))
    ensures e.Run? && e.life >= 3 ==> Step(pod, b, e).disk.probe.None?
  {
  }

  lemma {:induction false} BlockedForever(pod: PodSpec, start: Boot, es: seq<Event>)
    requires pod.inits != [] && pod.inits[0].name == ARCHIVE_CHECK
    requires Untracked(start.disk) && start.next == 0 && Threatened(es)
    ensures Blocked(start, Steps(pod, start, es))
    ensures es != [] && es[|es| - 1].Run? && es[|es| - 1].life >= 3 ==> Steps(pod, start, es).disk.probe.None?
  {
    if es != [] {
      var n := |es| - 1;
      assert es[n] in es;
      assert forall e | e in es[..n] :: e in es;
      BlockedForever(pod, start, es[..n]);
      BlockedStep(pod, start, Steps(pod, start, es[..n]), es[n]);
    }
  }

  /**
   Blocked start is absorbing. A pod injected with the guard on, over a volume whose database is
   missing or untracked, while the backup is restorable or unreadable: however often its
   containers are restarted, killed half-way or the pod recreated, no user init container, db-init,
   application or sidecar ever starts; database, state directory, markers and backup stay as they
   were; and a guard that ran to its end leaves no probe file.
   */
  lemma BlockedStart(pod: PodSpec, db: Replica, volume: string, disk: Disk, s3: nat, es: seq<Event>)
    requires db.spec.backupEnabled && !db.spec.autoRestore && !db.skip
    requires (disk.db.None? || !disk.stateDir) && forall e | e in es && e.Run? :: !e.probe.NoBackup?
    ensures var b := Steps(Injected(pod, db, volume), Boot(disk, s3, 0, []), es);
            && (forall name | name in b.ran :: name == ARCHIVE_CHECK)
            && b.disk.db == disk.db && b.disk.stateDir == disk.stateDir && b.disk.markers == disk.markers
            && b.disk.executed == disk.executed && b.s3 == s3
            && (es != [] && es[|es| - 1].Run? && es[|es| - 1].life >= 3 ==> b.disk.probe.None?)
  {
    GuardComesFirst(pod, db, volume);
    BlockedForever(Injected(pod, db, volume), Boot(disk, s3, 0, []), es);
  }

  /** Otherwise one undisturbed run of the guard is enough to go on to the next container. */
  lemma GuardLetsPass(pod: PodSpec, db: Replica, volume: string, disk: Disk, s3: nat, e: Event)
    requires Guarded(db) && e.Run? && e.life >= 3
    ensures Step(Injected(pod, db, volume), Boot(disk, s3, 0, []), e).next == 1 <==>
              (disk.db.Some? && disk.stateDir) || e.probe.NoBackup?
  {
  }

  // ---- db-init applies every SQL text once ----

  function DbInitRun(d: Disk, sql: string, hash: string -> string): Disk {
    if hash(sql) in d.markers then d
    else d.(executed := d.executed + [sql], markers := d.markers + {hash(sql)})
  }

  /** Uninterrupted pod starts with the given InitSQL contents, one after the other. */
  function Starts(d: Disk, sqls: seq<string>, hash: string -> string): Disk {
    if sqls == [] then d
    else var n := |sqls| - 1; DbInitRun(Starts(d, sqls[..n], hash), sqls[n], hash)
  }

  /** The sequence with later duplicates removed, and without what `skip` holds. */
  function FirstOccurrences(sqls: seq<string>, skip: set<string>, hash: string -> string): seq<string> {
    if sqls == [] then []
    else
      var n := |sqls| - 1;
      var before := FirstOccurrences(sqls[..n], skip, hash);
      if sqls[n] in sqls[..n] || hash(sqls[n]) in skip then before else before + [sqls[n]]
  }

  ghost predicate Injective(hash: string -> string) {
    forall a, b | hash(a) == hash(b) :: a == b
  }

  /** Over any sequence of starts the SQL executed is the sequence of contents with later duplicates removed. */
  lemma {:induction false} InitSqlOnce(d: Disk, sqls: seq<string>, hash: string -> string)
    requires Injective(hash)
    ensures Starts(d, sqls, hash).executed == d.executed + FirstOccurrences(sqls, d.markers, hash)
    ensures forall m :: m in Starts(d, sqls, hash).markers <==> m in d.markers || exists s | s in sqls :: hash(s) == m
  {
    if sqls != [] {
      var n := |sqls| - 1;
      InitSqlOnce(d, sqls[..n], hash);
      var last := sqls[n];
      assert sqls == sqls[..n] + [last];
      assert hash(last) in Starts(d, sqls[..n], hash).markers <==> last in sqls[..n] || hash(last) in d.markers;
    }
  }

  /** What "later duplicates removed" means: the same texts, none twice. */
  lemma {:induction false} FirstOccurrencesOnce(sqls: seq<string>, hash: string -> string)
    ensures forall s :: s in FirstOccurrences(sqls, {}, hash) <==> s in sqls
    ensures forall i, j | 0 <= i < j < |FirstOccurrences(sqls, {}, hash)| ::
              FirstOccurrences(sqls, {}, hash)[i] != FirstOccurrences(sqls, {}, hash)[j]
  {
    if sqls != [] {
      var n := |sqls| - 1;
      FirstOccurrencesOnce(sqls[..n], hash);
      assert sqls == sqls[..n] + [sqls[n]];
    }
  }
}
