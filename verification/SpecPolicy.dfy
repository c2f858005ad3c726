/** Field ownership, role ACL and value schema of the shared environment specification
    (src/core/spec_policy.py), and the dotted-path document the policy protects. */
module SpecPolicy {
  import opened Wrappers

  /** A JSON value as an agent can supply it. */
  datatype Value =
    | Null
    | Bool(b: bool)
    | Int(i: int)
    | Float(r: real)
    | Str(s: string)
    | List(items: seq<Value>)
    | Obj(fields: map<string, Value>)

  /** A value, or a missing one, used as a condition. */
  predicate Truthy(v: Option<Value>) {
    match v
    case None => false
    case Some(Null) => false
    case Some(Bool(b)) => b
    case Some(Int(i)) => i != 0
    case Some(Float(r)) => r != 0.0
    case Some(Str(s)) => s != ""
    case Some(List(items)) => items != []
    case Some(Obj(f)) => f != map[]
  }

  /** Outcome of one policy check: `Denied` is SpecPermissionError, `Malformed` SpecSchemaError. */
  datatype Verdict = Accepted | Denied | Malformed

  // ----------------------------------------------------------------------------------------
  // Dotted paths
  // ----------------------------------------------------------------------------------------

  /** `path.split(".")`. */
  function Segments(path: string): (segs: seq<string>)
    ensures |segs| >= 1
  {
    if path == "" then [""]
    else
      var rest := Segments(path[1..]);
      if path[0] == '.' then [""] + rest else [[path[0]] + rest[0]] + rest[1..]
  }

  function Join(segs: seq<string>): string
    requires |segs| >= 1
  {
    if |segs| == 1 then segs[0] else segs[0] + "." + Join(segs[1..])
  }

  lemma {:induction false} JoinSegments(path: string)
    ensures Join(Segments(path)) == path
  {
    if path != "" {
      JoinSegments(path[1..]);
      var rest := Segments(path[1..]);
      if path[0] != '.' {
        assert Segments(path)[1..] == rest[1..];
      }
    }
  }

  lemma {:induction false} JoinAppend(a: seq<string>, b: seq<string>)
    requires |a| >= 1 && |b| >= 1
    ensures Join(a + b) == Join(a) + "." + Join(b)
  {
    if |a| == 1 {
      assert (a + b)[1..] == b;
    } else {
      JoinAppend(a[1..], b);
      assert (a + b)[1..] == a[1..] + b;
      assert Join(a + b) == a[0] + "." + (Join(a[1..]) + "." + Join(b));
      assert Join(a) == a[0] + "." + Join(a[1..]);
    }
  }

  lemma SegmentsOfDot(t: string)
    ensures Segments("." + t) == [""] + Segments(t)
  {
    assert ("." + t)[1..] == t;
  }

  /** A character in front of a text goes into its first segment. */
  lemma SegmentsOfChar(c: char, t: string)
    requires c != '.'
    ensures Segments([c] + t) == [[c] + Segments(t)[0]] + Segments(t)[1..]
  {
    assert ([c] + t)[1..] == t;
  }

  lemma {:induction false} SegmentsAppend(x: string, t: string)
    ensures Segments(x + "." + t) == Segments(x) + Segments(t)
  {
    if x == "" {
      assert x + "." + t == "." + t;
      SegmentsOfDot(t);
    } else {
      SegmentsAppend(x[1..], t);
      AppendBehind(x[0], x[1..], t);
      assert x == [x[0]] + x[1..];
    }
  }

  lemma AppendBehind(c: char, x: string, t: string)
    requires Segments(x + "." + t) == Segments(x) + Segments(t)
    ensures Segments([c] + x + "." + t) == Segments([c] + x) + Segments(t)
  {
    hide Segments;
    assert [c] + x + "." + t == [c] + (x + "." + t);
    if c == '.' {
      SegmentsOfDot(x);
      SegmentsOfDot(x + "." + t);
    } else {
      SegmentsOfChar(c, x);
      SegmentsOfChar(c, x + "." + t);
    }
  }

  /** One of the two strings is the other, or extends it by a dot: the raw-string reading of
      "same node, ancestor or descendant". */
  predicate Related(x: string, y: string) {
    x == y || x + "." <= y || y + "." <= x
  }

  /** The string prefixes the ACL compares and the segment prefixes the store walks agree. */
  lemma SegmentPrefixIsDottedPrefix(x: string, y: string)
    ensures Segments(x) <= Segments(y) <==> x == y || x + "." <= y
  {
    if x + "." <= y {
      var t := y[|x| + 1..];
      assert y == x + "." + t;
      SegmentsAppend(x, t);
    }
    if Segments(x) <= Segments(y) {
      JoinSegments(x);
      JoinSegments(y);
      var rest := Segments(y)[|Segments(x)|..];
      assert Segments(y) == Segments(x) + rest;
      if rest == [] {
        assert Segments(y) == Segments(x);
      } else {
        JoinAppend(Segments(x), rest);
      }
    }
  }

  // ----------------------------------------------------------------------------------------
  // The tables
  // ----------------------------------------------------------------------------------------

  /** A group of table entries: `head + "." + name` for each name, or the bare `head`. */
  datatype Entries = Under(head: string, names: set<string>) | Root(head: string)

  predicate Lists(e: Entries, text: string) {
    match e
    case Under(head, names) => exists n | n in names :: text == head + "." + n
    case Root(head) => text == head
  }

  const CONTROLLER_OWNED: seq<Entries> := [
    Root("run_id"), Root("created_at"), Root("report"), Root("token_usage"),
    Under("sample", {"path", "sha256", "size_bytes", "source", "repo_url"}),
    Under("network", {"mode", "route_enforced"}),
    Under("cape_submission", {"pass1_task_id", "pass2_task_id", "final_task_id", "network_mode_enforced",
                              "available_machines", "backend_capabilities", "actual"}),
    Under("sandbox", {"actual"}),
    Under("executor", {"passes_completed", "final_task_id", "validation_failed", "validation_error",
                       "report_sha256_verified", "report_sha256_seen", "report_quality",
                       "report_fetch_error", "run_dir"}),
    Under("pass2", {"artefacts.cape_report", "artefacts.cape_report_task_id",
                    "artefacts.quarantined_report", "artefacts.quarantined_report_task_id"})
  ]

  const CONTROLLER_OWNED_PREFIXES: seq<Entries> := [
    Under("pass2", {"artefacts."}),
    Under("provenance", {""}),
    Under("sandbox", {"actual."}),
    Under("cape_submission", {"actual.", "validation_errors"})
  ]

  const SCOUT_WRITABLE: seq<Entries> := [
    Under("sample", {"format", "os_target", "architecture", "packed", "interpreter", "file_type", "pe_is_dll",
                     "proposed_path"}),
    Under("network", {"proposed_mode", "intercept_dns", "intercept_http", "c2_server", "reasoning"}),
    Under("environment", {""}), Under("classification", {""}),
    Under("sandbox", {"isolation", "os", "arch", "ram_mb", "disk_gb", "reasoning"}),
    Under("monitors", {""}), Under("scout", {""})
  ]

  const ARCHITECT_WRITABLE: seq<Entries> := [
    Under("environment", {""}),
    Under("network", {"intercept_dns", "intercept_http", "c2_server", "reasoning"}),
    Under("cape_submission", {"package", "timeout", "enforce_timeout", "options", "memory", "machine",
                              "platform", "priority", "tags", "reasoning", "error"}),
    Under("host", {""}), Under("architect", {""})
  ]

  const EXECUTOR_WRITABLE: seq<Entries> := [
    Under("pass1", {""}), Under("pass2", {"completed"}), Root("passes"),
    Under("executor", {"current_pass", "corrections", "empty_data_retry_done", "observations"}),
    Under("monitors", {""})
  ]

  const ANALYST_WRITABLE: seq<Entries> := [
    Under("analysis", {""}), Under("classification", {"family", "confidence"}), Under("analyst", {""})
  ]

  const CONTROLLER := "controller"

  function RoleWritable(actor: string): Option<seq<Entries>> {
    if actor == "Scout" then Some(SCOUT_WRITABLE)
    else if actor == "Architect" then Some(ARCHITECT_WRITABLE)
    else if actor == "Executor" then Some(EXECUTOR_WRITABLE)
    else if actor == "Analyst" then Some(ANALYST_WRITABLE)
    else None
  }

  // Value schema, by exact path.
  datatype FieldType = StrType | BoolType | IntType | ListType | DictType | NumberType

  function FieldTypeOf(path: string): Option<FieldType> {
    match path
    case "sample.format" => Some(StrType)
    case "sample.os_target" => Some(StrType)
    case "sample.architecture" => Some(StrType)
    case "sample.packed" => Some(BoolType)
    case "sample.interpreter" => Some(StrType)
    case "sample.file_type" => Some(StrType)
    case "sample.pe_is_dll" => Some(BoolType)
    case "network.proposed_mode" => Some(StrType)
    case "sample.proposed_path" => Some(StrType)
    case "network.c2_server" => Some(StrType)
    case "network.reasoning" => Some(StrType)
    case "cape_submission.tags" => Some(StrType)
    case "cape_submission.reasoning" => Some(StrType)
    case "cape_submission.error" => Some(StrType)
    case "analysis.report" => Some(DictType)
    case "classification.type" => Some(StrType)
    case "classification.confidence" => Some(StrType)
    case "classification.family" => Some(StrType)
    case "classification.basis" => Some(ListType)
    case "sandbox.isolation" => Some(StrType)
    case "sandbox.os" => Some(StrType)
    case "sandbox.arch" => Some(StrType)
    case "sandbox.ram_mb" => Some(IntType)
    case "sandbox.disk_gb" => Some(IntType)
    case "sandbox.reasoning" => Some(StrType)
    case "network.intercept_dns" => Some(BoolType)
    case "network.intercept_http" => Some(BoolType)
    case "cape_submission.package" => Some(StrType)
    case "cape_submission.timeout" => Some(IntType)
    case "cape_submission.enforce_timeout" => Some(BoolType)
    case "cape_submission.options" => Some(StrType)
    case "cape_submission.memory" => Some(BoolType)
    case "cape_submission.machine" => Some(StrType)
    case "cape_submission.platform" => Some(StrType)
    case "cape_submission.priority" => Some(IntType)
    case "pass1.completed" => Some(BoolType)
    case "pass1.observations" => Some(ListType)
    case "pass1.duration_s" => Some(NumberType)
    case "pass2.completed" => Some(BoolType)
    case "passes" => Some(ListType)
    case "executor.current_pass" => Some(IntType)
    case "executor.corrections" => Some(ListType)
    case "executor.empty_data_retry_done" => Some(BoolType)
    case "monitors" => Some(DictType)
    case _ => None
  }

  const FIELD_ENUMS: map<string, set<string>> := map[
    "classification.confidence" := {"high", "medium", "low", "unknown"},
    "cape_submission.platform" := {"windows", "linux", "macos", "android"},
    "network.proposed_mode" := {"isolated", "fakenet", "nat", "internet"},
    "sample.os_target" := {"windows", "linux", "macos", "android", "cross-platform", "unknown"}]

  const FIELD_BOUNDS: map<string, (int, int)> := map[
    "sandbox.ram_mb" := (256, 65536), "sandbox.disk_gb" := (1, 2048), "cape_submission.timeout" := (10, 1800),
    "cape_submission.priority" := (1, 3), "executor.current_pass" := (0, 16)]

  const MAX_KEY_DEPTH := 6
  const MAX_KEY_LENGTH := 160
  const MAX_STRING_LENGTH := 64 * 1024
  const MAX_LIST_LENGTH := 2048
  const MAX_VALUE_DEPTH := 8

  // ----------------------------------------------------------------------------------------
  // The check
  // ----------------------------------------------------------------------------------------

  function StripTrailingDots(s: string): string {
    if s != "" && s[|s| - 1] == '.' then StripTrailingDots(s[..|s| - 1]) else s
  }

  /** Some entry of `e` is a raw string prefix of `path`. */
  predicate ListsPrefixOf(e: Entries, path: string) {
    match e
    case Under(head, names) => exists n | n in names :: head + "." + n <= path
    case Root(head) => head <= path
  }

  /** `path == a.rstrip(".") or path.startswith(a)` for some entry `a` of `e`. */
  predicate Permits(e: Entries, path: string) {
    match e
    case Under(head, names) =>
      exists n | n in names :: path == StripTrailingDots(head + "." + n) || head + "." + n <= path
    case Root(head) => path == StripTrailingDots(head) || head <= path
  }

  predicate AnyPermits(table: seq<Entries>, path: string) {
    table != [] && (Permits(table[0], path) || AnyPermits(table[1..], path))
  }

  predicate AnyLists(table: seq<Entries>, path: string) {
    table != [] && (Lists(table[0], path) || AnyLists(table[1..], path))
  }

  predicate AnyListsPrefixOf(table: seq<Entries>, path: string) {
    table != [] && (ListsPrefixOf(table[0], path) || AnyListsPrefixOf(table[1..], path))
  }

  predicate OwnedByController(path: string) {
    AnyLists(CONTROLLER_OWNED, path) || AnyListsPrefixOf(CONTROLLER_OWNED_PREFIXES, path)
  }

  /** `alnum` is the platform's `str.isalnum` on one character. */
  predicate GoodSegment(segment: string, alnum: char -> bool) {
    && (exists i | 0 <= i < |segment| :: segment[i] != '_' && segment[i] != '-')
    && (forall i | 0 <= i < |segment| :: segment[i] == '_' || segment[i] == '-' || alnum(segment[i]))
  }

  predicate GoodKey(path: string, alnum: char -> bool) {
    && path != ""
    && |path| <= MAX_KEY_LENGTH
    && |Segments(path)| <= MAX_KEY_DEPTH
    && forall i | 0 <= i < |Segments(path)| :: GoodSegment(Segments(path)[i], alnum)
  }

  /** `_measure` does not raise. Its node count is not used by the check. */
  predicate WithinLimits(value: Value, depth: nat) {
    && depth <= MAX_VALUE_DEPTH
    && match value
       case Obj(fields) => forall k | k in fields :: WithinLimits(fields[k], depth + 1)
       case List(items) => |items| <= MAX_LIST_LENGTH && forall i | 0 <= i < |items| ::
         WithinLimits(items[i], depth + 1)
       case Str(s) => |s| <= MAX_STRING_LENGTH
       case _ => true
  }

  predicate HasType(value: Value, t: FieldType) {
    match t
    case StrType => value.Str?
    case BoolType => value.Bool?
    case IntType => value.Int?
    case ListType => value.List?
    case DictType => value.Obj?
    case NumberType => value.Int? || value.Float? || value.Bool?
  }

  predicate FitsSchema(path: string, value: Value) {
    && WithinLimits(value, 0)
    && (FieldTypeOf(path).Some? && value != Null ==> HasType(value, FieldTypeOf(path).value))
    && (path in FIELD_ENUMS && value != Null ==> value.Str? && value.s in FIELD_ENUMS[path])
    && (path in FIELD_BOUNDS && value.Int? ==> FIELD_BOUNDS[path].0 <= value.i <= FIELD_BOUNDS[path].1)
  }

  predicate MayWrite(actor: string, path: string) {
    && !OwnedByController(path)
    && RoleWritable(actor).Some?
    && AnyPermits(RoleWritable(actor).value, path)
  }

  /** `check_write`. */
  function CheckWrite(path: string, value: Value, actor: string, alnum: char -> bool): Verdict {
    if !GoodKey(path, alnum) then Malformed
    else if actor != CONTROLLER && !MayWrite(actor, path) then Denied
    else if FitsSchema(path, value) then Accepted
    else Malformed
  }

  // ----------------------------------------------------------------------------------------
  // Writable keys never touch owned paths
  // ----------------------------------------------------------------------------------------

  /** `a` and `b` differ at position `i`, where `a` has no dot. */
  predicate DiffersAt(a: string, b: string, i: nat) {
    i < |a| && i < |b| && a[i] != b[i] && a[i] != '.'
  }

  predicate ApartHeads(a: string, b: string) { DiffersAt(a, b, 3) || DiffersAt(a, b, 4) }

  predicate ApartNames(a: string, b: string) { DiffersAt(a, b, 0) || DiffersAt(a, b, 2) }

  /** No entry of `w` and entry of `o` agree on all the positions they both have. */
  predicate ApartEntries(w: Entries, o: Entries) {
    || ApartHeads(w.head, o.head)
    || (w.head == o.head && w.Under? && o.Under? && forall n, m | n in w.names && m in o.names :: ApartNames(n, m))
  }

  lemma ScoutSampleApartFromOwned(j: nat)
    requires j < |CONTROLLER_OWNED|
    ensures ApartEntries(SCOUT_WRITABLE[0], CONTROLLER_OWNED[j])
  {
  }

  lemma ScoutNetworkApartFromOwned(j: nat)
    requires j < |CONTROLLER_OWNED|
    ensures ApartEntries(SCOUT_WRITABLE[1], CONTROLLER_OWNED[j])
  {
  }

  lemma LastScoutRowsApartFromOwned(j: nat)
    requires j < |CONTROLLER_OWNED|
    ensures forall i | 2 <= i < |SCOUT_WRITABLE| :: ApartEntries(SCOUT_WRITABLE[i], CONTROLLER_OWNED[j])
  {
  }

  lemma ScoutApartFromPrefixes(j: nat)
    requires j < |CONTROLLER_OWNED_PREFIXES|
    ensures forall i | 0 <= i < |SCOUT_WRITABLE| :: ApartEntries(SCOUT_WRITABLE[i], CONTROLLER_OWNED_PREFIXES[j])
  {
  }

  lemma ArchitectNetworkApartFromOwned(j: nat)
    requires j < |CONTROLLER_OWNED|
    ensures ApartEntries(ARCHITECT_WRITABLE[0], CONTROLLER_OWNED[j])
    ensures ApartEntries(ARCHITECT_WRITABLE[1], CONTROLLER_OWNED[j])
  {
  }

  const CAPE_ROW := 6

  lemma PlanNameStarts(n: string)
    requires n in ARCHITECT_WRITABLE[2].names
    ensures |n| > 2 && if n[0] == 'p' then n[2] in "cai" else n[0] in "teomr"
  {
  }

  lemma OwnedCapeNameStarts(m: string)
    requires m in CONTROLLER_OWNED[CAPE_ROW].names
    ensures |m| > 2 && if m[0] == 'p' then m[2] == 's' else m[0] in "fnab"
  {
  }

  lemma PlanNamesApartFromOwned(n: string, m: string)
    requires n in ARCHITECT_WRITABLE[2].names && m in CONTROLLER_OWNED[CAPE_ROW].names
    ensures ApartNames(n, m)
  {
    PlanNameStarts(n);
    OwnedCapeNameStarts(m);
  }

  lemma ArchitectPlanApartFromOwned(j: nat)
    requires j < |CONTROLLER_OWNED|
    ensures ApartEntries(ARCHITECT_WRITABLE[2], CONTROLLER_OWNED[j])
  {
    hide ApartNames;
    if j == CAPE_ROW {
      forall n, m | n in ARCHITECT_WRITABLE[2].names && m in CONTROLLER_OWNED[j].names ensures ApartNames(n, m) {
        PlanNamesApartFromOwned(n, m);
      }
    }
  }

  lemma LastArchitectRowsApartFromOwned(j: nat)
    requires j < |CONTROLLER_OWNED|
    ensures forall i | 3 <= i < |ARCHITECT_WRITABLE| :: ApartEntries(ARCHITECT_WRITABLE[i], CONTROLLER_OWNED[j])
  {
  }

  lemma ArchitectApartFromPrefixes(j: nat)
    requires j < |CONTROLLER_OWNED_PREFIXES|
    ensures forall i | 0 <= i < |ARCHITECT_WRITABLE| ::
            ApartEntries(ARCHITECT_WRITABLE[i], CONTROLLER_OWNED_PREFIXES[j])
  {
  }

  lemma FirstExecutorRowsApartFromOwned(j: nat)
    requires j < |CONTROLLER_OWNED|
    ensures forall i | 0 <= i < 3 :: ApartEntries(EXECUTOR_WRITABLE[i], CONTROLLER_OWNED[j])
  {
  }

  lemma LastExecutorRowsApartFromOwned(j: nat)
    requires j < |CONTROLLER_OWNED|
    ensures forall i | 3 <= i < |EXECUTOR_WRITABLE| :: ApartEntries(EXECUTOR_WRITABLE[i], CONTROLLER_OWNED[j])
  {
  }

  lemma ExecutorApartFromPrefixes(j: nat)
    requires j < |CONTROLLER_OWNED_PREFIXES|
    ensures forall i | 0 <= i < |EXECUTOR_WRITABLE| :: ApartEntries(EXECUTOR_WRITABLE[i], CONTROLLER_OWNED_PREFIXES[j])
  {
  }

  lemma AnalystApartFromOwned(j: nat)
    requires j < |CONTROLLER_OWNED|
    ensures forall i | 0 <= i < |ANALYST_WRITABLE| :: ApartEntries(ANALYST_WRITABLE[i], CONTROLLER_OWNED[j])
  {
  }

  lemma AnalystApartFromPrefixes(j: nat)
    requires j < |CONTROLLER_OWNED_PREFIXES|
    ensures forall i | 0 <= i < |ANALYST_WRITABLE| :: ApartEntries(ANALYST_WRITABLE[i], CONTROLLER_OWNED_PREFIXES[j])
  {
  }

  lemma TablesApart(actor: string, w: Entries, o: Entries)
    requires RoleWritable(actor).Some? && w in RoleWritable(actor).value
    requires o in CONTROLLER_OWNED || o in CONTROLLER_OWNED_PREFIXES
    ensures ApartEntries(w, o)
  {
    hide ApartEntries;
    if o in CONTROLLER_OWNED {
      var j :| 0 <= j < |CONTROLLER_OWNED| && CONTROLLER_OWNED[j] == o;
      ScoutSampleApartFromOwned(j);
      ScoutNetworkApartFromOwned(j);
      LastScoutRowsApartFromOwned(j);
      ArchitectNetworkApartFromOwned(j);
      ArchitectPlanApartFromOwned(j);
      LastArchitectRowsApartFromOwned(j);
      FirstExecutorRowsApartFromOwned(j);
      LastExecutorRowsApartFromOwned(j);
      AnalystApartFromOwned(j);
    } else {
      var j :| 0 <= j < |CONTROLLER_OWNED_PREFIXES| && CONTROLLER_OWNED_PREFIXES[j] == o;
      ScoutApartFromPrefixes(j);
      ArchitectApartFromPrefixes(j);
      ExecutorApartFromPrefixes(j);
      AnalystApartFromPrefixes(j);
    }
  }

  /** Stripping trailing dots keeps everything up to a character that is not a dot. */
  lemma {:induction false} StripKeeps(s: string, j: nat)
    requires j < |s| && s[j] != '.'
    ensures j < |StripTrailingDots(s)| && StripTrailingDots(s) <= s
  {
    if s[|s| - 1] == '.' {
      StripKeeps(s[..|s| - 1], j);
    }
  }

  /** What both strings start with settles that neither is a dotted prefix of the other. */
  lemma DifferenceSeparates(a: string, b: string, i: nat, k: string, p: string)
    requires DiffersAt(a, b, i)
    requires StripTrailingDots(a) <= k && b <= p
    ensures !Related(k, p)
  {
    StripKeeps(a, i);
    assert (k + ".")[i] == k[i] == a[i] && (p + ".")[i] == p[i] == b[i];
  }

  /** Two entries that are apart give texts that differ at a position both have. */
  lemma EntriesDiffer(w: Entries, a: string, o: Entries, b: string) returns (i: nat)
    requires ApartEntries(w, o) && Lists(w, a) && Lists(o, b)
    ensures DiffersAt(a, b, i)
  {
    if ApartHeads(w.head, o.head) {
      i := if DiffersAt(w.head, o.head, 3) then 3 else 4;
    } else {
      var n :| n in w.names && a == w.head + "." + n;
      var m :| m in o.names && b == o.head + "." + m;
      assert ApartNames(n, m);
      i := |w.head| + 1 + if DiffersAt(n, m, 0) then 0 else 2;
    }
  }

  /** The entry that permits `path`, stripped of trailing dots, is a prefix of `path`. */
  lemma PermittedStarts(w: Entries, path: string) returns (a: string)
    requires Permits(w, path)
    ensures Lists(w, a) && StripTrailingDots(a) <= path
  {
    match w
    case Under(head, names) =>
      var n :| n in names && (path == StripTrailingDots(head + "." + n) || head + "." + n <= path);
      a := head + "." + n;
      StrippedIsPrefix(a);
    case Root(head) =>
      a := head;
      StrippedIsPrefix(a);
  }

  lemma {:induction false} StrippedIsPrefix(s: string)
    ensures StripTrailingDots(s) <= s
  {
    if s != "" && s[|s| - 1] == '.' {
      StrippedIsPrefix(s[..|s| - 1]);
    }
  }

  lemma {:induction false} PermittingEntry(table: seq<Entries>, path: string) returns (e: Entries)
    requires AnyPermits(table, path)
    ensures e in table && Permits(e, path)
  {
    e := table[0];
    if !Permits(e, path) {
      e := PermittingEntry(table[1..], path);
    }
  }

  lemma {:induction false} ListedEntry(table: seq<Entries>, path: string) returns (e: Entries)
    requires AnyLists(table, path)
    ensures e in table && Lists(e, path)
  {
    e := table[0];
    if !Lists(e, path) {
      e := ListedEntry(table[1..], path);
    }
  }

  lemma {:induction false} ListedPrefix(table: seq<Entries>, path: string) returns (e: Entries, b: string)
    requires AnyListsPrefixOf(table, path)
    ensures e in table && Lists(e, b) && b <= path
  {
    e := table[0];
    if ListsPrefixOf(e, path) {
      match e
      case Under(head, names) =>
        var n :| n in names && head + "." + n <= path;
        b := head + "." + n;
      case Root(head) =>
        b := head;
    } else {
      e, b := ListedPrefix(table[1..], path);
    }
  }

  lemma {:induction false} ListedByRow(table: seq<Entries>, e: Entries, path: string)
    requires e in table && Lists(e, path)
    ensures AnyLists(table, path)
  {
    if e != table[0] {
      ListedByRow(table[1..], e, path);
    }
  }

  lemma {:induction false} PermittedByRow(table: seq<Entries>, e: Entries, path: string)
    requires e in table && Permits(e, path)
    ensures AnyPermits(table, path)
  {
    if e != table[0] {
      PermittedByRow(table[1..], e, path);
    }
  }

  lemma OwnedStarts(p: string) returns (o: Entries, b: string)
    requires OwnedByController(p)
    ensures (o in CONTROLLER_OWNED || o in CONTROLLER_OWNED_PREFIXES) && Lists(o, b) && b <= p
  {
    hide AnyLists, AnyListsPrefixOf;
    if AnyLists(CONTROLLER_OWNED, p) {
      o := ListedEntry(CONTROLLER_OWNED, p);
      b := p;
    } else {
      o, b := ListedPrefix(CONTROLLER_OWNED_PREFIXES, p);
    }
  }

  /** The tables alone keep what they permit away from what the controller owns. */
  lemma PermittedNeverTouchesOwned(actor: string, k: string, p: string)
    requires RoleWritable(actor).Some? && AnyPermits(RoleWritable(actor).value, k)
    requires OwnedByController(p)
    ensures !Related(k, p)
  {
    hide RoleWritable, OwnedByController;
    var w := PermittingEntry(RoleWritable(actor).value, k);
    var a := PermittedStarts(w, k);
    var o, b := OwnedStarts(p);
    TablesApart(actor, w, o);
    var i := EntriesDiffer(w, a, o, b);
    DifferenceSeparates(a, b, i, k, p);
  }

  /** A key any agent role may write is never a controller-owned path, nor a segment ancestor
      or descendant of one. */
  lemma WritableNeverTouchesOwned(actor: string, k: string, p: string)
    requires MayWrite(actor, k) && OwnedByController(p)
    ensures !Related(k, p)
    ensures !(Segments(k) <= Segments(p)) && !(Segments(p) <= Segments(k))
  {
    hide RoleWritable, OwnedByController;
    PermittedNeverTouchesOwned(actor, k, p);
    SegmentPrefixIsDottedPrefix(k, p);
    SegmentPrefixIsDottedPrefix(p, k);
  }

  /** For a known role, the ownership test in `check_write` never decides: the ACL already refuses. */
  lemma OwnershipTestIsRedundant(actor: string, k: string)
    requires RoleWritable(actor).Some?
    ensures MayWrite(actor, k) <==> AnyPermits(RoleWritable(actor).value, k)
  {
    hide RoleWritable, OwnedByController;
    if AnyPermits(RoleWritable(actor).value, k) && OwnedByController(k) {
      PermittedNeverTouchesOwned(actor, k, k);
    }
  }
}
