/**
 The litestream.yml printer (internal/controller/litestreamreplica_controller.go) and
 the argument list of the restore Job that reads a printed file.
 */
module LitestreamConfig {
  import opened Wrappers

  datatype S3 = S3(endpoint: string, bucket: string, path: string)

  /** The fields of a LitestreamReplica spec that the two controllers and the webhook read. */
  datatype ReplicaSpec = ReplicaSpec(
    databasePath: string, databaseName: string,
    backupEnabled: bool, s3: Option<S3>, retention: string, syncInterval: string,
    autoRestore: bool, initSQL: string)

  const PAUSED_CONFIG := "dbs: []\n"

  /** What a litestream ConfigMap holds: the paused text or the full text of some spec. */
  datatype Config = Paused | Full(spec: ReplicaSpec) {
    function Text(): string {
      match this
      case Paused => PAUSED_CONFIG
      case Full(spec) => Yaml(ViewOf(spec))
    }
  }

  // ---- What a printed file says ----

  /** The replica block as printed: `None` is a line the printer leaves out. */
  datatype ReplicaBlock = ReplicaBlock(
    endpoint: Option<string>, bucket: string, path: Option<string>,
    retention: Option<string>, syncInterval: Option<string>)

  datatype View = View(dbPath: string, block: Option<ReplicaBlock>)

  predicate HasPrefix(s: string, p: string) {
    |p| <= |s| && s[..|p|] == p
  }

  function NormalEndpoint(e: string): string {
    if HasPrefix(e, "http://") || HasPrefix(e, "https://") then e else "http://" + e
  }

  /** strings.TrimRight(s, "/"). */
  function TrimSlashes(s: string): string {
    if s != "" && s[|s| - 1] == '/' then TrimSlashes(s[..|s| - 1]) else s
  }

  function NonEmpty(s: string): Option<string> {
    if s == "" then None else Some(s)
  }

  function DbPath(spec: ReplicaSpec): string {
    spec.databasePath + "/" + spec.databaseName
  }

  function ViewOf(spec: ReplicaSpec): View {
    View(DbPath(spec),
         if spec.backupEnabled && spec.s3.Some? then
           var s3 := spec.s3.value;
           Some(ReplicaBlock(
                  if s3.endpoint == "" then None else Some(NormalEndpoint(s3.endpoint)),
                  s3.bucket,
                  if s3.path == "" then None else Some(TrimSlashes(s3.path)),
                  NonEmpty(spec.retention), NonEmpty(spec.syncInterval)))
         else None)
  }

  // ---- The text of a view: one line after another ----

  function Unlines(lines: seq<string>): string {
    if lines == [] then "" else lines[0] + "\n" + Unlines(lines[1..])
  }

  function OptLine(key: string, value: Option<string>): seq<string> {
    if value.None? then [] else [key + value.value]
  }

  const ENDPOINT := "      endpoint: "
  const PATH_STYLE := "      force-path-style: true"
  const BUCKET := "      bucket: "
  const PATH := "      path: "
  const RETENTION := "      retention: "
  const SYNC := "      sync-interval: "

  function TailLines(b: ReplicaBlock): seq<string> {
    OptLine(PATH, b.path) + OptLine(RETENTION, b.retention) + OptLine(SYNC, b.syncInterval)
  }

  function EndpointLines(e: Option<string>): seq<string> {
    if e.None? then [] else [ENDPOINT + e.value, PATH_STYLE]
  }

  function BlockLines(b: ReplicaBlock): seq<string> {
    EndpointLines(b.endpoint) + ([BUCKET + b.bucket] + TailLines(b))
  }

  function Lines(v: View): seq<string> {
    ["addr: \":9090\"", "dbs:", "  - path: " + v.dbPath] +
    (if v.block.None? then [] else ["    replica:", "      type: s3"] + BlockLines(v.block.value))
  }

  function Yaml(v: View): string {
    Unlines(Lines(v))
  }

  lemma {:induction false} UnlinesAppend(a: seq<string>, b: seq<string>)
    ensures Unlines(a + b) == Unlines(a) + Unlines(b)
  {
    if a == [] {
      assert a + b == b;
    } else {
      UnlinesAppend(a[1..], b);
      assert (a + b)[1..] == a[1..] + b;
    }
  }

  lemma UnlinesOne(s: string)
    ensures Unlines([s]) == s + "\n"
  {
  }

  /** Appending one more printed line. */
  lemma UnlinesSnoc(a: seq<string>, s: string)
    ensures Unlines(a + [s]) == Unlines(a) + (s + "\n")
  {
    UnlinesAppend(a, [s]);
    UnlinesOne(s);
  }

  /** The printer as the source runs it: the text grows by one line per statement. */
  method BuildLitestreamConfigYaml(spec: ReplicaSpec) returns (cfg: string)
    ensures cfg == Yaml(ViewOf(spec))
  {
    ghost var v := ViewOf(spec);
    var dbPath := spec.databasePath + "/" + spec.databaseName;
    ghost var done: seq<string> := [];
    cfg := "";
    cfg, done := AddLine(cfg, "addr: \":9090\"", done);
    cfg, done := AddLine(cfg, "dbs:", done);
    cfg, done := AddLine(cfg, "  - path: " + dbPath, done);
    if spec.backupEnabled && spec.s3.Some? {
      cfg, done := AddBlock(cfg, spec, spec.s3.value, done);
    }
    assert done == Lines(v);
  }

  method AddBlock(cfg: string, spec: ReplicaSpec, s3: S3, ghost done: seq<string>)
    returns (r: string, ghost after: seq<string>)
    requires cfg == Unlines(done)
    requires spec.backupEnabled && spec.s3 == Some(s3)
    ensures r == Unlines(after)
    ensures after == done + (["    replica:", "      type: s3"] + BlockLines(ViewOf(spec).block.value))
  {
    r, after := AddLine(cfg, "    replica:", done);
    r, after := AddLine(r, "      type: s3", after);
    r, after := AddEndpoint(r, s3, after);
    r, after := AddLine(r, "      bucket: " + s3.bucket, after);
    r, after := AddTail(r, spec, s3, after);
  }

  method AddLine(cfg: string, line: string, ghost done: seq<string>) returns (r: string, ghost after: seq<string>)
    requires cfg == Unlines(done)
    ensures r == cfg + (line + "\n")
    ensures after == done + [line] && r == Unlines(after)
  {
    r, after := cfg + (line + "\n"), done + [line];
    UnlinesSnoc(done, line);
  }

  method AddEndpoint(cfg: string, s3: S3, ghost done: seq<string>) returns (r: string, ghost after: seq<string>)
    requires cfg == Unlines(done)
    ensures r == Unlines(after)
    ensures after == done + EndpointLines(if s3.endpoint == "" then None else Some(NormalEndpoint(s3.endpoint)))
  {
    r, after := cfg, done;
    if s3.endpoint != "" {
      var endpoint := s3.endpoint;
      if !HasPrefix(endpoint, "http://") && !HasPrefix(endpoint, "https://") {
        endpoint := "http://" + endpoint;
      }
      r, after := AddLine(r, "      endpoint: " + endpoint, after);
      r, after := AddLine(r, "      force-path-style: true", after);
    }
  }

  method AddTail(cfg: string, spec: ReplicaSpec, s3: S3, ghost done: seq<string>)
    returns (r: string, ghost after: seq<string>)
    requires cfg == Unlines(done)
    requires spec.backupEnabled && spec.s3 == Some(s3)
    ensures r == Unlines(after)
    ensures after == done + TailLines(ViewOf(spec).block.value)
  {
    r, after := cfg, done;
    if s3.path != "" {
      r, after := AddLine(r, "      path: " + TrimSlashes(s3.path), after);
    }
    if spec.retention != "" {
      r, after := AddLine(r, "      retention: " + spec.retention, after);
    }
    if spec.syncInterval != "" {
      r, after := AddLine(r, "      sync-interval: " + spec.syncInterval, after);
    }
  }

  // ---- The printer loses nothing but the normalisation ----

  predicate OneLine(s: string) {
    '\n' !in s
  }

  predicate OneLineOpt(o: Option<string>) {
    o.Some? ==> OneLine(o.value)
  }

  predicate Printable(v: View) {
    OneLine(v.dbPath) &&
    (v.block.Some? ==>
       var b := v.block.value;
       OneLineOpt(b.endpoint) && OneLine(b.bucket) && OneLineOpt(b.path) &&
       OneLineOpt(b.retention) && OneLineOpt(b.syncInterval))
  }

  /** A line ends at its first newline, so equal texts start with equal lines. */
  lemma FirstLine(a: string, x: string, b: string, y: string)
    requires OneLine(a) && OneLine(b)
    requires a + "\n" + x == b + "\n" + y
    ensures a == b && x == y
  {
    var l, r := a + "\n" + x, b + "\n" + y;
    assert l[|a|] == '\n' && r[|b|] == '\n';
    assert l[..|a|] == a && r[..|b|] == b;
    assert l[|a| + 1..] == x && r[|b| + 1..] == y;
  }

  lemma {:induction false} UnlinesInjective(a: seq<string>, b: seq<string>)
    requires forall s | s in a + b :: OneLine(s)
    requires Unlines(a) == Unlines(b)
    ensures a == b
  {
    assert a != [] ==> |Unlines(a)| >= 1;
    assert b != [] ==> |Unlines(b)| >= 1;
    if a != [] && b != [] {
      assert a[0] in a + b && b[0] in a + b;
      FirstLine(a[0], Unlines(a[1..]), b[0], Unlines(b[1..]));
      assert forall s | s in a[1..] + b[1..] :: s in a + b;
      UnlinesInjective(a[1..], b[1..]);
      assert a == [a[0]] + a[1..] && b == [b[0]] + b[1..];
    }
  }

  /** The key of every line of a replica block is told apart by its seventh character. */
  predicate StartsAt6(lines: seq<string>, c: char) {
    lines != [] ==> |lines[0]| > 6 && lines[0][6] > c
  }

  lemma PeelOptional(key: string, x: Option<string>, p: seq<string>, y: Option<string>, q: seq<string>)
    requires |key| > 6 && StartsAt6(p, key[6]) && StartsAt6(q, key[6])
    requires OptLine(key, x) + p == OptLine(key, y) + q
    ensures x == y && p == q
  {
    var l, r := OptLine(key, x) + p, OptLine(key, y) + q;
    assert x.Some? ==> l[0][6] == key[6];
    assert y.Some? ==> r[0][6] == key[6];
    assert x.None? ==> l == p;
    assert y.None? ==> r == q;
    if x.Some? && y.Some? {
      assert l[0] == key + x.value && r[0] == key + y.value;
      assert l[0][|key|..] == x.value && r[0][|key|..] == y.value;
      assert l[1..] == p && r[1..] == q;
    }
  }

  lemma TailInjective(a: ReplicaBlock, b: ReplicaBlock)
    requires TailLines(a) == TailLines(b)
    ensures a.path == b.path && a.retention == b.retention && a.syncInterval == b.syncInterval
  {
    var sa, sb := OptLine(SYNC, a.syncInterval), OptLine(SYNC, b.syncInterval);
    var ra, rb := OptLine(RETENTION, a.retention) + sa, OptLine(RETENTION, b.retention) + sb;
    assert TailLines(a) == OptLine(PATH, a.path) + ra && TailLines(b) == OptLine(PATH, b.path) + rb;
    assert PATH[6] == 'p' && RETENTION[6] == 'r' && SYNC[6] == 's';
    PeelOptional(PATH, a.path, ra, b.path, rb);
    PeelOptional(RETENTION, a.retention, sa, b.retention, sb);
    assert sa + [] == sb + [];
    PeelOptional(SYNC, a.syncInterval, [], b.syncInterval, []);
  }

  lemma BlockInjective(a: ReplicaBlock, b: ReplicaBlock)
    requires BlockLines(a) == BlockLines(b)
    ensures a == b
  {
    var la, lb := BlockLines(a), BlockLines(b);
    var ta, tb := [BUCKET + a.bucket] + TailLines(a), [BUCKET + b.bucket] + TailLines(b);
    assert BUCKET[6] == 'b' && ENDPOINT[6] == 'e';
    assert la[0][6] == (if a.endpoint.Some? then 'e' else 'b');
    assert lb[0][6] == (if b.endpoint.Some? then 'e' else 'b');
    if a.endpoint.Some? {
      assert la[0] == ENDPOINT + a.endpoint.value && lb[0] == ENDPOINT + b.endpoint.value;
      assert la[0][|ENDPOINT|..] == a.endpoint.value && lb[0][|ENDPOINT|..] == b.endpoint.value;
      assert la[2..] == ta && lb[2..] == tb;
    } else {
      assert la == ta && lb == tb;
    }
    assert ta[0] == BUCKET + a.bucket && tb[0] == BUCKET + b.bucket;
    assert ta[0][|BUCKET|..] == a.bucket && tb[0][|BUCKET|..] == b.bucket;
    assert ta[1..] == TailLines(a) && tb[1..] == TailLines(b);
    TailInjective(a, b);
  }

  lemma LinesInjective(v: View, w: View)
    requires Lines(v) == Lines(w)
    ensures v == w
  {
    var l, m := Lines(v), Lines(w);
    var key := "  - path: ";
    assert l[2] == key + v.dbPath && m[2] == key + w.dbPath;
    assert l[2][|key|..] == v.dbPath && m[2][|key|..] == w.dbPath;
    if v.block.Some? && w.block.Some? {
      assert l[5..] == BlockLines(v.block.value) && m[5..] == BlockLines(w.block.value);
      BlockInjective(v.block.value, w.block.value);
    }
  }

  lemma TailOneLine(b: ReplicaBlock, s: string)
    requires OneLineOpt(b.path) && OneLineOpt(b.retention) && OneLineOpt(b.syncInterval)
    requires s in TailLines(b)
    ensures OneLine(s)
  {
  }

  lemma LinesOneLine(v: View, s: string)
    requires Printable(v) && s in Lines(v)
    ensures OneLine(s)
  {
    if v.block.Some? && s in TailLines(v.block.value) {
      TailOneLine(v.block.value, s);
    }
  }

  /** Two printable views have the same text exactly when they are the same view. */
  lemma YamlInjective(v: View, w: View)
    requires Printable(v) && Printable(w)
    ensures Yaml(v) == Yaml(w) <==> v == w
  {
    if Yaml(v) == Yaml(w) {
      forall s | s in Lines(v) + Lines(w)
        ensures OneLine(s)
      {
        if s in Lines(v) { LinesOneLine(v, s); } else { LinesOneLine(w, s); }
      }
      UnlinesInjective(Lines(v), Lines(w));
      LinesInjective(v, w);
    }
  }

  /** No full configuration prints as the paused text, whatever the fields hold. */
  lemma NeverPausedText(v: View)
    ensures Yaml(v) != PAUSED_CONFIG
  {
  }

  /** Comparing a ConfigMap's text with the paused text tells the two kinds apart exactly. */
  lemma PausedTextIsPaused(c: Config)
    ensures c.Text() == PAUSED_CONFIG <==> c.Paused?
  {
  }

  /** Specs whose text fields carry no newline print to printable views. */
  predicate NewlineFree(spec: ReplicaSpec) {
    OneLine(spec.databasePath) && OneLine(spec.databaseName) &&
    OneLine(spec.retention) && OneLine(spec.syncInterval) &&
    (spec.s3.Some? ==> OneLine(spec.s3.value.endpoint) && OneLine(spec.s3.value.bucket) && OneLine(spec.s3.value.path))
  }

  lemma {:induction false} TrimKeepsPrefix(s: string)
    ensures TrimSlashes(s) <= s
    ensures forall i | |TrimSlashes(s)| <= i < |s| :: s[i] == '/'
    ensures TrimSlashes(s) != "" ==> TrimSlashes(s)[|TrimSlashes(s)| - 1] != '/'
  {
    if s != "" && s[|s| - 1] == '/' {
      TrimKeepsPrefix(s[..|s| - 1]);
    }
  }

  lemma NewlineFreePrintable(spec: ReplicaSpec)
    requires NewlineFree(spec)
    ensures Printable(ViewOf(spec))
  {
    if spec.s3.Some? {
      TrimKeepsPrefix(spec.s3.value.path);
    }
  }

  /** A replica block is printed. */
  predicate Replicates(spec: ReplicaSpec) { spec.backupEnabled && spec.s3.Some? }

  /** The endpoint with a scheme: its own, or http. */
  predicate WithScheme(endpoint: string, r: string) {
    r == if HasPrefix(endpoint, "http://") || HasPrefix(endpoint, "https://") then endpoint else "http://" + endpoint
  }

  /** What is left of a path without its trailing slashes. */
  predicate Trimmed(path: string, r: string) {
    && r <= path && (r != "" ==> r[|r| - 1] != '/')
    && forall i | |r| <= i < |path| :: path[i] == '/'
  }

  lemma TrimmedUnique(path: string, r: string)
    ensures Trimmed(path, r) <==> r == TrimSlashes(path)
  {
    TrimKeepsPrefix(path);
    assert Trimmed(path, r) ==> |r| == |TrimSlashes(path)|;
  }

  /** Everything of the two specs that is printed is the same. */
  predicate SamePrint(s: ReplicaSpec, t: ReplicaSpec) {
    && s.databasePath + "/" + s.databaseName == t.databasePath + "/" + t.databaseName
    && (Replicates(s) <==> Replicates(t))
    && (Replicates(s) ==>
          var a, b := s.s3.value, t.s3.value;
          && (a.endpoint == "" <==> b.endpoint == "") && NormalEndpoint(a.endpoint) == NormalEndpoint(b.endpoint)
          && a.bucket == b.bucket
          && (a.path == "" <==> b.path == "") && TrimSlashes(a.path) == TrimSlashes(b.path)
          && s.retention == t.retention && s.syncInterval == t.syncInterval)
  }

  /**
   The printed text determines, and is determined by, the database path, the presence of the
   replica block, the scheme-normalised endpoint, the bucket, the slash-trimmed path, the
   retention and the sync interval.
   */
  lemma PrinterInjective(s: ReplicaSpec, t: ReplicaSpec)
    requires NewlineFree(s) && NewlineFree(t)
    ensures Full(s).Text() == Full(t).Text() <==> SamePrint(s, t)
  {
    NewlineFreePrintable(s);
    NewlineFreePrintable(t);
    YamlInjective(ViewOf(s), ViewOf(t));
  }

  // ---- Reading the printed file back ----

  function FirstNewline(s: string): (k: nat)
    ensures k <= |s| && OneLine(s[..k])
    ensures k < |s| ==> s[k] == '\n'
  {
    if s == "" || s[0] == '\n' then 0
    else
      var k := 1 + FirstNewline(s[1..]);
      assert s[..k] == [s[0]] + s[1..][..k - 1];
      k
  }

  function SplitLines(s: string): seq<string>
    decreases |s|
  {
    if s == "" then []
    else
      var k := FirstNewline(s);
      if k == |s| then [s] else [s[..k]] + SplitLines(s[k + 1..])
  }

  /** The value on the first line that starts with the key. */
  function ValueOf(lines: seq<string>, key: string): Option<string> {
    if lines == [] then None
    else if HasPrefix(lines[0], key) then Some(lines[0][|key|..])
    else ValueOf(lines[1..], key)
  }

  /** What a reader of the file finds under a key. */
  function ReadField(text: string, key: string): Option<string> {
    ValueOf(SplitLines(text), key)
  }

  lemma {:induction false} SplitUnlines(lines: seq<string>)
    requires forall s | s in lines :: OneLine(s)
    ensures SplitLines(Unlines(lines)) == lines
  {
    if lines != [] {
      var text, rest := Unlines(lines), Unlines(lines[1..]);
      var k := FirstNewline(text);
      assert text[|lines[0]|] == '\n' && text[..|lines[0]|] == lines[0];
      assert lines[0] in lines;
      assert k == |lines[0]|;
      assert text[k + 1..] == rest;
      assert forall s | s in lines[1..] :: s in lines;
      SplitUnlines(lines[1..]);
    }
  }

  lemma {:induction false} ValueOfAppend(a: seq<string>, b: seq<string>, key: string)
    ensures ValueOf(a + b, key) == if ValueOf(a, key).Some? then ValueOf(a, key) else ValueOf(b, key)
  {
    if a == [] {
      assert a + b == b;
    } else {
      ValueOfAppend(a[1..], b, key);
      assert (a + b)[1..] == a[1..] + b;
    }
  }

  /** A key of a replica block is found on its own line and on no line of another key. */
  lemma ReadOpt(line: string, value: Option<string>, key: string)
    requires |line| > 6 && |key| > 6 && (line == key || line[6] != key[6])
    ensures ValueOf(OptLine(line, value), key) == if line == key then value else None
  {
    if value.Some? {
      var text := line + value.value;
      assert text[6] == line[6] && text[..|line|] == line && text[|line|..] == value.value;
      assert HasPrefix(text, key) ==> text[..|key|][6] == key[6];
      assert OptLine(line, value)[1..] == [];
    }
  }

  const STYLE := "      force-path-style: "

  lemma BlockAsOpts(b: ReplicaBlock)
    ensures BlockLines(b) ==
            OptLine(ENDPOINT, b.endpoint) + (OptLine(STYLE, if b.endpoint.Some? then Some("true") else None) +
            (OptLine(BUCKET, Some(b.bucket)) + (OptLine(PATH, b.path) +
            (OptLine(RETENTION, b.retention) + OptLine(SYNC, b.syncInterval)))))
  {
    assert STYLE + "true" == PATH_STYLE;
  }

  function BlockField(b: ReplicaBlock, key: string): Option<string> {
    if key == ENDPOINT then b.endpoint
    else if key == STYLE then if b.endpoint.Some? then Some("true") else None
    else if key == BUCKET then Some(b.bucket)
    else if key == PATH then b.path
    else if key == RETENTION then b.retention
    else b.syncInterval
  }

  lemma BlockRead(b: ReplicaBlock, key: string)
    requires key in {ENDPOINT, STYLE, BUCKET, PATH, RETENTION, SYNC}
    ensures ValueOf(BlockLines(b), key) == BlockField(b, key)
  {
    BlockAsOpts(b);
    assert ENDPOINT[6] == 'e' && STYLE[6] == 'f' && BUCKET[6] == 'b';
    assert PATH[6] == 'p' && RETENTION[6] == 'r' && SYNC[6] == 's';
    var style := if b.endpoint.Some? then Some("true") else None;
    ReadOpt(ENDPOINT, b.endpoint, key);
    ReadOpt(STYLE, style, key);
    ReadOpt(BUCKET, Some(b.bucket), key);
    ReadOpt(PATH, b.path, key);
    ReadOpt(RETENTION, b.retention, key);
    ReadOpt(SYNC, b.syncInterval, key);
    var l5 := OptLine(RETENTION, b.retention) + OptLine(SYNC, b.syncInterval);
    var l4 := OptLine(PATH, b.path) + l5;
    var l3 := OptLine(BUCKET, Some(b.bucket)) + l4;
    var l2 := OptLine(STYLE, style) + l3;
    ValueOfAppend(OptLine(RETENTION, b.retention), OptLine(SYNC, b.syncInterval), key);
    ValueOfAppend(OptLine(PATH, b.path), l5, key);
    ValueOfAppend(OptLine(BUCKET, Some(b.bucket)), l4, key);
    ValueOfAppend(OptLine(STYLE, style), l3, key);
    ValueOfAppend(OptLine(ENDPOINT, b.endpoint), l2, key);
  }

  /** The lines before the block have none of its keys. */
  lemma HeadRead(dbPath: string, key: string)
    requires key in {ENDPOINT, STYLE, BUCKET, PATH, RETENTION, SYNC}
    ensures ValueOf(["addr: \":9090\"", "dbs:", "  - path: " + dbPath], key) == None
    ensures ValueOf(["    replica:", "      type: s3"], key) == None
  {
    var head := ["addr: \":9090\"", "dbs:", "  - path: " + dbPath];
    assert key[0] == ' ' && key[2] == ' ' && key[4] == ' ' && |key| > 6 && key[6] != 't';
    assert head[0][0] == 'a' && head[1][0] == 'd' && head[2][2] == '-';
    assert forall i | 0 <= i < 3 && HasPrefix(head[i], key) :: head[i][..|key|][0] == ' ' && head[i][..|key|][2] == ' ';
    NoneOfThese(head, key);
    var more := ["    replica:", "      type: s3"];
    assert more[0][4] == 'r' && more[1][6] == 't';
    assert forall i | 0 <= i < 2 && HasPrefix(more[i], key) ::
        more[i][..|key|][4] == ' ' && more[i][..|key|][6] == key[6];
    NoneOfThese(more, key);
  }

  lemma {:induction false} NoneOfThese(lines: seq<string>, key: string)
    requires forall i | 0 <= i < |lines| :: !HasPrefix(lines[i], key)
    ensures ValueOf(lines, key) == None
  {
    if lines != [] {
      NoneOfThese(lines[1..], key);
    }
  }

  lemma ViewRead(v: View, key: string)
    requires Printable(v) && key in {ENDPOINT, STYLE, BUCKET, PATH, RETENTION, SYNC}
    ensures ReadField(Yaml(v), key) == if v.block.Some? then BlockField(v.block.value, key) else None
  {
    forall s | s in Lines(v)
      ensures OneLine(s)
    {
      LinesOneLine(v, s);
    }
    SplitUnlines(Lines(v));
    HeadRead(v.dbPath, key);
    var head, more := ["addr: \":9090\"", "dbs:", "  - path: " + v.dbPath], ["    replica:", "      type: s3"];
    if v.block.Some? {
      BlockRead(v.block.value, key);
      ValueOfAppend(more, BlockLines(v.block.value), key);
      ValueOfAppend(head, more + BlockLines(v.block.value), key);
    } else {
      assert Lines(v) == head;
    }
  }

  /** The database path is read back from the head of the file. */
  lemma PathRead(spec: ReplicaSpec)
    requires NewlineFree(spec)
    ensures ReadField(Full(spec).Text(), "  - path: ") == Some(spec.databasePath + "/" + spec.databaseName)
  {
    NewlineFreePrintable(spec);
    var v := ViewOf(spec);
    forall s | s in Lines(v)
      ensures OneLine(s)
    {
      LinesOneLine(v, s);
    }
    SplitUnlines(Lines(v));
    var key, head := "  - path: ", ["addr: \":9090\"", "dbs:"];
    var tail := Lines(v)[2..];
    assert Lines(v) == head + tail;
    assert forall i | 0 <= i < 2 && HasPrefix(head[i], key) :: head[i][..|key|][0] == ' ';
    assert head[0][0] == 'a' && head[1][0] == 'd';
    NoneOfThese(head, key);
    ValueOfAppend(head, tail, key);
    assert tail[0] == key + v.dbPath && tail[0][..|key|] == key && tail[0][|key|..] == v.dbPath;
  }

  /** How every file starts, and all of a file without a replica block, whatever the fields hold. */
  lemma PrinterHead(spec: ReplicaSpec)
    ensures var head := "addr: \":9090\"\ndbs:\n  - path: " + (spec.databasePath + "/" + spec.databaseName) + "\n";
            if spec.backupEnabled && spec.s3.Some?
            then HasPrefix(Full(spec).Text(), head + "    replica:\n      type: s3\n")
            else Full(spec).Text() == head
  {
    var v := ViewOf(spec);
    var first, second := ["addr: \":9090\"", "dbs:", "  - path: " + v.dbPath], ["    replica:", "      type: s3"];
    HeadText(v.dbPath);
    if v.block.Some? {
      var block := BlockLines(v.block.value);
      BlockHeadText();
      UnlinesAppend(first, second + block);
      UnlinesAppend(second, block);
      PrefixOfThree(Unlines(first), Unlines(second), Unlines(block));
    } else {
      assert Lines(v) == first;
    }
  }

  lemma PrefixOfThree(a: string, b: string, c: string)
    ensures HasPrefix(a + (b + c), a + b)
  {
    assert a + (b + c) == a + b + c;
  }

  lemma BlockHeadText()
    ensures Unlines(["    replica:", "      type: s3"]) == "    replica:\n      type: s3\n"
  {
    TwoLines("    replica:", "      type: s3");
  }

  lemma TwoLines(a: string, b: string)
    ensures Unlines([a, b]) == a + "\n" + b + "\n"
  {
    assert [a, b] == [a] + [b];
    UnlinesOne(a);
    UnlinesSnoc([a], b);
  }

  lemma HeadText(p: string)
    ensures Unlines(["addr: \":9090\"", "dbs:", "  - path: " + p]) == "addr: \":9090\"\ndbs:\n  - path: " + p + "\n"
  {
    var a, b, c := "addr: \":9090\"", "dbs:", "  - path: " + p;
    TwoLines(a, b);
    assert [a, b, c] == [a, b] + [c];
    UnlinesSnoc([a, b], c);
    assert a + "\n" + b + "\n" + (c + "\n") == (a + "\n" + b + "\n" + "  - path: ") + p + "\n";
  }

  /**
   What a reader of the file gets, for newline-free fields: under every key exactly the field of
   the spec that belongs there, and nothing under a key whose field is empty or without backup.
   */
  lemma PrinterReadable(spec: ReplicaSpec)
    requires NewlineFree(spec)
    ensures ReadField(Full(spec).Text(), "  - path: ") == Some(spec.databasePath + "/" + spec.databaseName)
    ensures ReadField(Full(spec).Text(), "      retention: ") ==
            if spec.backupEnabled && spec.s3.Some? && spec.retention != "" then Some(spec.retention) else None
    ensures ReadField(Full(spec).Text(), "      sync-interval: ") ==
            if spec.backupEnabled && spec.s3.Some? && spec.syncInterval != "" then Some(spec.syncInterval) else None
    ensures ReadField(Full(spec).Text(), "      bucket: ") ==
            if spec.backupEnabled && spec.s3.Some? then Some(spec.s3.value.bucket) else None
    ensures var r := ReadField(Full(spec).Text(), "      endpoint: ");
            if spec.backupEnabled && spec.s3.Some? && spec.s3.value.endpoint != ""
            then r.Some? && WithScheme(spec.s3.value.endpoint, r.value) else r.None?
    ensures ReadField(Full(spec).Text(), "      force-path-style: ") ==
            if spec.backupEnabled && spec.s3.Some? && spec.s3.value.endpoint != "" then Some("true") else None
    ensures var r := ReadField(Full(spec).Text(), "      path: ");
            if spec.backupEnabled && spec.s3.Some? && spec.s3.value.path != ""
            then r.Some? && Trimmed(spec.s3.value.path, r.value) else r.None?
  {
    NewlineFreePrintable(spec);
    PathRead(spec);
    ViewRead(ViewOf(spec), ENDPOINT);
    ViewRead(ViewOf(spec), STYLE);
    ViewRead(ViewOf(spec), BUCKET);
    ViewRead(ViewOf(spec), PATH);
    ViewRead(ViewOf(spec), RETENTION);
    ViewRead(ViewOf(spec), SYNC);
    if spec.s3.Some? {
      TrimmedUnique(spec.s3.value.path, TrimSlashes(spec.s3.value.path));
    }
  }

  // ---- The restore Job reads the file printed for it ----

  datatype RestoreSpec = RestoreSpec(targetPath: string, force: bool, timestamp: string)

  /** The argument list of the restore Job, grown as the source grows it. */
  method BuildRestoreArgs(restore: RestoreSpec, spec: ReplicaSpec) returns (args: seq<string>)
    ensures |args| >= 6
    ensures args[..5] == ["restore", "-config", "/etc/litestream/litestream.yml", "-o", restore.targetPath]
    ensures args[5..|args| - 1] == (if restore.force then ["-force"] else []) +
                                   (if restore.timestamp != "" then ["-timestamp", restore.timestamp] else [])
    ensures args[|args| - 1] == spec.databasePath + "/" + spec.databaseName
    ensures NewlineFree(spec) ==> ReadField(Full(spec).Text(), "  - path: ") == Some(args[|args| - 1])
  {
    if NewlineFree(spec) {
      PathRead(spec);
    }
    var dbPathInConfig := spec.databasePath + "/" + spec.databaseName;
    args := ["restore", "-config", "/etc/litestream/litestream.yml", "-o", restore.targetPath];
    if restore.force {
      args := args + ["-force"];
    }
    if restore.timestamp != "" {
      args := args + ["-timestamp", restore.timestamp];
    }
    args := args + [dbPathInConfig];
  }
}
