/** Structural and provenance checks on the Analyst's report (src/core/report_validation.py). */
module ReportValidation {
  import opened Wrappers
  import opened SpecPolicy

  datatype Problem =
    | NotAnObject
    | MissingField(name: string)
    | WrongType(name: string)
    | BadConfidence
    | BadIoc(index: nat)
    | UnknownIocType(index: nat)
    | EmptyIocValue(index: nat)
    | BadTechnique(index: nat)
    | WrongTask
    | NoDelivery
    | DeliveryDiffers

  /** The checks that depend on text matching outside this model: `\s`-stripping to nothing, and the
      `Txxxx(.yyy)` technique pattern on the stripped text. */
  datatype TextTests = TextTests(blank: string -> bool, technique: string -> bool)

  const IOC_TYPES: set<string> := {
    "ip", "domain", "url", "sha256", "sha1", "md5", "mutex", "registry_key", "file_path", "email",
    "user_agent", "other", "telegram", "discord", "tor_onion", "onion", "process_name", "cmdline",
    "port", "hostname", "filename", "yara_rule", "asn"}

  const CONFIDENCE: set<string> := {"high", "medium", "low", "unknown"}

  // ----------------------------------------------------------------------------------------
  // Normalisation
  // ----------------------------------------------------------------------------------------

  /** An IOC of a type outside the whitelist becomes "other" and keeps its label as `raw_type`. */
  function NormalizeIoc(ioc: Value): Value {
    if ioc.Obj? && "type" in ioc.fields && ioc.fields["type"].Str? && ioc.fields["type"].s !in IOC_TYPES
    then Obj(ioc.fields["raw_type" := ioc.fields["type"]]["type" := Str("other")])
    else ioc
  }

  function NormalizeIocs(iocs: seq<Value>): (r: seq<Value>)
    ensures |r| == |iocs| && forall i | 0 <= i < |iocs| :: r[i] == NormalizeIoc(iocs[i])
  {
    if iocs == [] then [] else [NormalizeIoc(iocs[0])] + NormalizeIocs(iocs[1..])
  }

  function Normalize(report: Value): Value {
    if report.Obj? && "iocs" in report.fields && report.fields["iocs"].List?
    then Obj(report.fields["iocs" := List(NormalizeIocs(report.fields["iocs"].items))])
    else report
  }

  /** The loop over the IOC list, appending to a fresh list. */
  method NormalizeReport(report: Value) returns (r: Value)
    ensures r == Normalize(report)
  {
    if !report.Obj? || "iocs" !in report.fields || !report.fields["iocs"].List? {
      return report;
    }
    var iocs := report.fields["iocs"].items;
    var normalized := [];
    var i := 0;
    while i < |iocs|
      invariant 0 <= i <= |iocs|
      invariant normalized == NormalizeIocs(iocs)[..i]
    {
      var ioc := iocs[i];
      if ioc.Obj? && "type" in ioc.fields && ioc.fields["type"].Str? && ioc.fields["type"].s !in IOC_TYPES {
        ioc := Obj(ioc.fields["raw_type" := ioc.fields["type"]]["type" := Str("other")]);
      }
      normalized := normalized + [ioc];
      i := i + 1;
    }
    assert normalized == NormalizeIocs(iocs);
    r := Obj(report.fields["iocs" := List(normalized)]);
  }

  // ----------------------------------------------------------------------------------------
  // Validation
  // ----------------------------------------------------------------------------------------

  const REQUIRED_FIELDS: seq<(string, FieldType)> := [
    ("classification", StrType), ("confidence", StrType), ("behaviour_summary", ListType),
    ("iocs", ListType), ("mitre_attack", ListType)]

  function FieldProblems(fields: map<string, Value>, required: seq<(string, FieldType)>): seq<Problem> {
    if required == [] then []
    else
      var (key, t) := required[0];
      (if key !in fields then [MissingField(key)] else if !HasType(fields[key], t) then [WrongType(key)] else [])
        + FieldProblems(fields, required[1..])
  }

  function IocProblemsOf(ioc: Value, i: nat, text: TextTests): seq<Problem> {
    if !ioc.Obj? || "type" !in ioc.fields || "value" !in ioc.fields then [BadIoc(i)]
    else
      (if !ioc.fields["type"].Str? || ioc.fields["type"].s !in IOC_TYPES then [UnknownIocType(i)] else [])
        + (if !ioc.fields["value"].Str? || text.blank(ioc.fields["value"].s) then [EmptyIocValue(i)] else [])
  }

  function IocProblems(iocs: seq<Value>, i: nat, text: TextTests): seq<Problem>
    decreases |iocs| - i
  {
    if i >= |iocs| then [] else IocProblemsOf(iocs[i], i, text) + IocProblems(iocs, i + 1, text)
  }

  function TechniqueProblems(items: seq<Value>, i: nat, text: TextTests): seq<Problem>
    decreases |items| - i
  {
    if i >= |items| then []
    else (if !items[i].Str? || !text.technique(items[i].s) then [BadTechnique(i)] else [])
         + TechniqueProblems(items, i + 1, text)
  }

  function ListOf(fields: map<string, Value>, key: string): seq<Value> {
    if key in fields && fields[key].List? then fields[key].items else []
  }

  function Validate(report: Value, expectedTask: Option<int>, text: TextTests): seq<Problem> {
    if !report.Obj? then [NotAnObject]
    else
      var f := report.fields;
      FieldProblems(f, REQUIRED_FIELDS)
        + (if "confidence" in f && f["confidence"].Str? && f["confidence"].s !in CONFIDENCE then [BadConfidence]
           else [])
        + IocProblems(ListOf(f, "iocs"), 0, text)
        + TechniqueProblems(ListOf(f, "mitre_attack"), 0, text)
        + (if expectedTask.Some? && !("cape_task_id" in f && f["cape_task_id"] == Int(expectedTask.value))
           then [WrongTask] else [])
  }

  predicate IsNumber(v: Value) {
    v.Bool? || v.Int? || v.Float?
  }

  function NumberOf(v: Value): real
    requires IsNumber(v)
  {
    match v
    case Bool(b) => if b then 1.0 else 0.0
    case Int(i) => i as real
    case Float(r) => r
  }

  /** Equality of JSON values as the program compares them: 1, 1.0 and true are one number. */
  predicate SameJson(v: Value, w: Value)
    decreases v
  {
    if IsNumber(v) then IsNumber(w) && NumberOf(v) == NumberOf(w)
    else
      match v
      case Str(s) => w == v
      case List(items) =>
        w.List? && |w.items| == |items| && forall i | 0 <= i < |items| :: SameJson(items[i], w.items[i])
      case Obj(f) => w.Obj? && w.fields.Keys == f.Keys && forall k | k in f :: SameJson(f[k], w.fields[k])
      case _ => w == v
  }

  /** `delivery` is the parsed content of analysis_report.json, or None when it is missing, not a
      regular file of acceptable size, or not JSON. */
  function CompletionProblems(report: Value, delivery: Option<Value>, expectedTask: Option<int>, text: TextTests)
    : seq<Problem>
  {
    var candidate := Normalize(report);
    if Validate(candidate, expectedTask, text) != [] then Validate(candidate, expectedTask, text)
    else if delivery.None? then [NoDelivery]
    else if Validate(Normalize(delivery.value), expectedTask, text) != [] then
      Validate(Normalize(delivery.value), expectedTask, text)
    else if !SameJson(Normalize(delivery.value), candidate) then [DeliveryDiffers]
    else []
  }

  // ----------------------------------------------------------------------------------------
  // Properties
  // ----------------------------------------------------------------------------------------

  lemma NormalizeIocIsStable(ioc: Value)
    ensures NormalizeIoc(NormalizeIoc(ioc)) == NormalizeIoc(ioc)
    ensures ioc.Obj? && "type" in ioc.fields && ioc.fields["type"].Str? ==>
              NormalizeIoc(ioc).Obj? && NormalizeIoc(ioc).fields["type"].s in IOC_TYPES
  {
    assert "other" in IOC_TYPES;
  }

  /** Normalising twice is normalising once, and no field but `iocs` is touched. */
  lemma NormalizeIsStable(report: Value)
    ensures Normalize(Normalize(report)) == Normalize(report)
    ensures report.Obj? ==> Normalize(report).Obj? && Normalize(report).fields.Keys == report.fields.Keys
                            && forall k | k in report.fields && k != "iocs" ::
                               Normalize(report).fields[k] == report.fields[k]
  {
    if report.Obj? && "iocs" in report.fields && report.fields["iocs"].List? {
      var iocs := report.fields["iocs"].items;
      forall i | 0 <= i < |iocs| {
        NormalizeIocIsStable(iocs[i]);
      }
      assert NormalizeIocs(NormalizeIocs(iocs)) == NormalizeIocs(iocs);
    }
  }

  lemma {:induction false} NoUnknownIocTypes(iocs: seq<Value>, i: nat, text: TextTests)
    requires forall k | 0 <= k < |iocs| :: iocs[k] == NormalizeIoc(iocs[k])
    requires forall k | i <= k < |iocs| :: iocs[k].Obj? && "type" in iocs[k].fields ==> iocs[k].fields["type"].Str?
    ensures forall p | p in IocProblems(iocs, i, text) :: !p.UnknownIocType?
    decreases |iocs| - i
  {
    if i < |iocs| {
      NormalizeIocIsStable(iocs[i]);
      NoUnknownIocTypes(iocs, i + 1, text);
    }
  }

  /** A descriptive IOC label alone never fails a report: after normalisation, an unknown-type problem
      can only come from a `type` that is not a string. */
  lemma LabelsNeverFailAReport(report: Value, expectedTask: Option<int>, text: TextTests)
    requires report.Obj?
    requires forall ioc | ioc in ListOf(report.fields, "iocs") ::
               ioc.Obj? && "type" in ioc.fields ==> ioc.fields["type"].Str?
    ensures forall p | p in IocProblems(ListOf(Normalize(report).fields, "iocs"), 0, text) :: !p.UnknownIocType?
  {
    NormalizeIsStable(report);
    var iocs := ListOf(report.fields, "iocs");
    var out := ListOf(Normalize(report).fields, "iocs");
    forall i | 0 <= i < |iocs|
      ensures out[i] == NormalizeIoc(out[i]) && (out[i].Obj? && "type" in out[i].fields ==> out[i].fields["type"].Str?)
    {
      assert iocs[i] in iocs;
      NormalizeIocIsStable(iocs[i]);
    }
    NoUnknownIocTypes(out, 0, text);
  }

  /** A complete report names the expected task, in the structured result and in the delivered file,
      and the two are the same report up to normalisation and the spelling of numbers. */
  lemma CompleteReportNamesTask(report: Value, delivery: Option<Value>, task: int, text: TextTests)
    requires CompletionProblems(report, delivery, Some(task), text) == []
    ensures report.Obj? && "cape_task_id" in report.fields && report.fields["cape_task_id"] == Int(task)
    ensures delivery.Some? && SameJson(Normalize(delivery.value), Normalize(report))
    ensures Normalize(report).Obj? && "cape_task_id" in Normalize(report).fields
            && Normalize(report).fields["cape_task_id"] == Int(task)
  {
    NormalizeIsStable(report);
  }

  /** Promotion re-checks the already normalised report: that changes nothing. */
  lemma CompletionOfNormalized(report: Value, delivery: Option<Value>, expectedTask: Option<int>, text: TextTests)
    ensures CompletionProblems(Normalize(report), delivery, expectedTask, text)
            == CompletionProblems(report, delivery, expectedTask, text)
  {
    NormalizeIsStable(report);
  }
}
