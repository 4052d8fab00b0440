/**
 * The configuration loader of the older revision (`ConfigManager`): the
 * `Setting` validator chain and the per-key chains of `load`. YAML values
 * arrive untyped, as the configuration library hands them over; report
 * lines are kept as tokens rather than rendered text.
 */
module Settings {
  import opened Wrappers
  import opened JavaInt

  /** `BatchingMode`. */
  datatype BatchingMode = SmartExecution | StrictTick | Interval

  /**
   * A raw configuration value: a Boolean, an Integer, any other Number (a
   * Double, or a Long for integers outside the int range), a String, a list
   * of strings, or anything else (a section).
   */
  datatype Val = VBool(b: bool) | VInt(i: Int32) | VNumber(r: real) | VText(s: string) | VList(items: seq<string>) | VOther

  /** The document: dotted paths to the values present. */
  type Doc = map<string, Val>

  /** The expected classes `validateType` is called with. */
  datatype Kind = Boolean | Integer

  datatype Reason = WrongType(expected: Kind, provided: Val) | Rejected(message: string, value: Val)

  /** One line of `lastLoadReport`. */
  datatype Line =
    | OnPath(path: string)
    | Shown(value: Val, risky: bool)
    | ErrorNote(reason: Reason, reset: Val)
    | WarningNote(message: string)
    | Spacer
    | CriticalNote

  /** `Setting<T>` mid-chain: the raw value, the default, the current value and the error flag; `report` is the shared report. */
  datatype Setting = Setting(path: string, raw: Option<Val>, def: Val, value: Val, hasError: bool, report: seq<Line>)

  /** An unchecked cast failed while reading a value (a `ClassCastException`). */
  datatype Crash = ClassCast(path: string)

  /** `new Setting<>(config, path, def)`: the value is the document's if present, else the default. */
  function Open(doc: Doc, path: string, def: Val, report: seq<Line>): Setting {
    var raw := if path in doc then Some(doc[path]) else None;
    Setting(path, raw, def, raw.GetOr(def), false, report)
  }

  predicate Assignable(k: Kind, v: Val) {
    match k
    case Boolean => v.VBool?
    case Integer => v.VInt?
  }

  predicate IsNumber(v: Val) {
    v.VInt? || v.VNumber?
  }

  /** The report of `after` extends that of `before` by lines none of which is the critical one. */
  predicate Extends(before: seq<Line>, after: seq<Line>) {
    before <= after && forall i | |before| <= i < |after| :: after[i] != CriticalNote
  }

  lemma ExtendsKeepsClean(a: seq<Line>, b: seq<Line>)
    requires Extends(a, b) && CriticalNote !in a
    ensures CriticalNote !in b
  {
    forall i | 0 <= i < |b| ensures b[i] != CriticalNote {
      if i < |a| {
        assert b[i] == a[i];
      }
    }
  }

  /** `reportError`: four lines naming the path, the offending value, the reason and the default. */
  function ReportError(s: Setting, shown: Val, reason: Reason): (r: Setting)
    ensures r == s.(report := r.report)
    ensures |r.report| == |s.report| + 4 && s.report <= r.report
    ensures r.report[|s.report|] == OnPath(s.path) && r.report[|s.report| + 2] == ErrorNote(reason, s.def)
    ensures Extends(s.report, r.report)
  {
    s.(report := s.report + [OnPath(s.path), Shown(shown, false), ErrorNote(reason, s.def), Spacer])
  }

  /** `reportWarning`: four lines naming the path, the risky value and the message. */
  function ReportWarning(s: Setting, shown: Val, message: string): (r: Setting)
    ensures r == s.(report := r.report)
    ensures |r.report| == |s.report| + 4 && s.report <= r.report
    ensures r.report[|s.report|] == OnPath(s.path) && r.report[|s.report| + 2] == WarningNote(message)
    ensures Extends(s.report, r.report)
  {
    s.(report := s.report + [OnPath(s.path), Shown(shown, true), WarningNote(message), Spacer])
  }

  /**
   * `validateType`: a present value of another class is reported and
   * replaced by the default, with the error flag set; any Number passes
   * for a numeric expected class; an absent key keeps the default.
   */
  function ValidateType(s: Setting, k: Kind): (r: Setting)
    ensures r.path == s.path && r.raw == s.raw && r.def == s.def
    ensures s.raw.None? || Assignable(k, s.raw.value) || (k == Integer && IsNumber(s.raw.value)) ==> r == s
    ensures s.raw.Some? && !Assignable(k, s.raw.value) && !(k == Integer && IsNumber(s.raw.value)) ==>
      && r.value == s.def && r.hasError
      && |r.report| == |s.report| + 4 && s.report <= r.report
      && r.report[|s.report| + 2] == ErrorNote(WrongType(k, s.raw.value), s.def)
    ensures Extends(s.report, r.report)
  {
    if s.raw.Some? && !Assignable(k, s.raw.value) then
      if k == Integer && IsNumber(s.raw.value) then s
      else ReportError(s, s.raw.value, WrongType(k, s.raw.value)).(value := s.def, hasError := true)
    else s
  }

  /**
   * `validate` on an Integer setting: skipped after an error; a failing
   * predicate is reported and resets the value to the default with the
   * error flag set. Testing a value that is not an Integer fails the cast.
   */
  function Validate(s: Setting, ok: Int32 -> bool, message: string): (r: Result<Setting, Crash>)
    ensures s.hasError ==> r == Success(s)
    ensures !s.hasError && !s.value.VInt? ==> r == Failure(ClassCast(s.path))
    ensures !s.hasError && s.value.VInt? && ok(s.value.i) ==> r == Success(s)
    ensures !s.hasError && s.value.VInt? && !ok(s.value.i) ==>
      && r.Success? && r.value.value == s.def && r.value.hasError
      && |r.value.report| == |s.report| + 4 && s.report <= r.value.report
    ensures r.Success? ==> r.value.path == s.path && r.value.raw == s.raw && r.value.def == s.def
    ensures r.Success? ==> Extends(s.report, r.value.report)
  {
    if s.hasError then Success(s)
    else match s.value
      case VInt(i) =>
        if ok(i) then Success(s)
        else Success(ReportError(s, s.value, Rejected(message, s.value)).(value := s.def, hasError := true))
      case _ => Failure(ClassCast(s.path))
  }

  /** `warn`: skipped after an error; a failing predicate only appends a warning. The value never changes. */
  function Warn(s: Setting, ok: Int32 -> bool, message: string): (r: Result<Setting, Crash>)
    ensures s.hasError ==> r == Success(s)
    ensures !s.hasError && !s.value.VInt? ==> r == Failure(ClassCast(s.path))
    ensures r.Success? ==> r.value == s.(report := r.value.report) && s.report <= r.value.report
    ensures r.Success? && !s.hasError ==> (|r.value.report| == |s.report| + 4 <==> !ok(s.value.i))
    ensures r.Success? && !s.hasError && ok(s.value.i) ==> r.value == s
    ensures r.Success? ==> Extends(s.report, r.value.report)
  {
    if s.hasError then Success(s)
    else match s.value
      case VInt(i) => if ok(i) then Success(s) else Success(ReportWarning(s, s.value, message))
      case _ => Failure(ClassCast(s.path))
  }

  /** `get()` assigned to an int field: the cast to Integer. */
  function GetInt(s: Setting): (r: Result<Int32, Crash>)
    ensures r.Success? <==> s.value.VInt?
    ensures r.Success? ==> VInt(r.value) == s.value
  {
    match s.value
    case VInt(i) => Success(i)
    case _ => Failure(ClassCast(s.path))
  }

  // ---------------------------------------------------------------------------
  // Per-key chains

  /** A bound an int setting is validated against, and an advisory ceiling it is warned about. */
  datatype IntRule = IntRule(min: Option<Int32>, minMessage: string, warnAbove: Option<Int32>, warnMessage: string)

  predicate MeetsMin(rule: IntRule, v: int) {
    rule.min.None? || v >= rule.min.value
  }

  /** `validateType(Integer.class)`, then `validate(min)` and `warn(ceiling)` where present, then `get()`. */
  function IntSetting(doc: Doc, path: string, def: Int32, rule: IntRule, report: seq<Line>): (r: Result<(Int32, seq<Line>), Crash>)
    ensures r.Failure? <==> path in doc && doc[path].VNumber?
    ensures r.Success? ==> Extends(report, r.value.1) && (|r.value.1| == |report| || |r.value.1| == |report| + 4)
    ensures r.Success? && MeetsMin(rule, def) ==> MeetsMin(rule, r.value.0)
    ensures path !in doc && MeetsMin(rule, def) && (rule.warnAbove.None? || def <= rule.warnAbove.value) ==>
      r == Success((def, report))
    ensures path in doc && doc[path].VInt? && MeetsMin(rule, doc[path].i) ==> r.Success? && r.value.0 == doc[path].i
    ensures path in doc && !IsNumber(doc[path]) ==> r.Success? && r.value.0 == def && |r.value.1| == |report| + 4
  {
    var s0 := ValidateType(Open(doc, path, VInt(def), report), Integer);
    var s1 :- if rule.min.Some? then Validate(s0, v => v >= rule.min.value, rule.minMessage) else Success(s0);
    var s2 :- if rule.warnAbove.Some? then Warn(s1, v => v <= rule.warnAbove.value, rule.warnMessage) else Success(s1);
    var v :- GetInt(s2);
    Success((v, s2.report))
  }

  /** `validateType(Boolean.class)` then `get()`: the document's boolean, or the default. */
  function BoolSetting(doc: Doc, path: string, def: bool, report: seq<Line>): (r: (bool, seq<Line>))
    ensures r.0 == (if path in doc && doc[path].VBool? then doc[path].b else def)
    ensures path in doc && !doc[path].VBool? ==> |r.1| == |report| + 4 && report <= r.1
    ensures !(path in doc && !doc[path].VBool?) ==> r.1 == report
    ensures Extends(report, r.1)
  {
    var s := ValidateType(Open(doc, path, VBool(def), report), Boolean);
    (if s.value.VBool? then s.value.b else def, s.report)
  }

  // ---------------------------------------------------------------------------
  // Batching mode

  function UpperChar(c: char): char {
    if 'a' <= c <= 'z' then (c as int - 32) as char else c
  }

  /** `toUpperCase()` on ASCII letters. */
  function Upper(s: string): (r: string)
    ensures |r| == |s| && forall i | 0 <= i < |s| :: r[i] == UpperChar(s[i])
  {
    seq(|s|, i requires 0 <= i < |s| => UpperChar(s[i]))
  }

  function ModeName(m: BatchingMode): string {
    match m
    case SmartExecution => "SMART_EXECUTION"
    case StrictTick => "STRICT_TICK"
    case Interval => "INTERVAL"
  }

  /**
   * The parser of `batching.mode`: `valueOf` of the upper-cased text, or
   * SMART_EXECUTION when no constant has that name. Values other than text
   * print as something no constant is named.
   */
  function ParseMode(v: Val): (m: BatchingMode)
    ensures forall n: BatchingMode :: v.VText? && Upper(v.s) == ModeName(n) ==> m == n
    ensures !v.VText? ==> m == SmartExecution
    ensures v.VText? && (forall n: BatchingMode :: Upper(v.s) != ModeName(n)) ==> m == SmartExecution
  {
    match v
    case VText(s) =>
      var u := Upper(s);
      if u == ModeName(StrictTick) then StrictTick
      else if u == ModeName(Interval) then Interval
      else SmartExecution
    case _ => SmartExecution
  }

  function LowerChar(c: char): char {
    if 'A' <= c <= 'Z' then (c as int + 32) as char else c
  }

  function Lower(s: string): (r: string)
    ensures |r| == |s| && forall i | 0 <= i < |s| :: r[i] == LowerChar(s[i])
  {
    seq(|s|, i requires 0 <= i < |s| => LowerChar(s[i]))
  }

  lemma UpperIdempotent(s: string)
    ensures Upper(Upper(s)) == Upper(s)
  {
  }

  /** The mode is read case-insensitively. */
  lemma ParseModeIgnoresCase(s: string)
    ensures ParseMode(VText(s)) == ParseMode(VText(Upper(s)))
  {
    UpperIdempotent(s);
  }

  /** Every mode's own name, in upper or lower case, reads back as that mode. */
  lemma ParseModeName(m: BatchingMode)
    ensures ParseMode(VText(ModeName(m))) == m
    ensures ParseMode(VText(Lower(ModeName(m)))) == m
  {
    var n := ModeName(m);
    assert forall i | 0 <= i < |n| :: n[i] == '_' || 'A' <= n[i] <= 'Z';
    UpperFixesCapitals(n);
  }

  /** A name of capitals and underscores is its own upper case, and so is the upper case of its lower case. */
  lemma UpperFixesCapitals(n: string)
    requires forall i | 0 <= i < |n| :: n[i] == '_' || 'A' <= n[i] <= 'Z'
    ensures Upper(n) == n && Upper(Lower(n)) == n
  {
  }

  // ---------------------------------------------------------------------------
  // Loading

  /** The static fields `load` assigns. */
  datatype Config = Config(
    enabled: bool, useIoUring: bool, mode: BatchingMode,
    flushInterval: Int32, maxBatchSize: Int32, maxBatchBytes: Int32, safetyMargin: Int32,
    instantPackets: seq<string>, optExplosions: bool, threshold: Int32,
    metricsEnabled: bool, metricsInterval: Int32, emulateEvents: bool, ignoredPackets: seq<string>)

  /** The static initialisers, in force before the first load. */
  const Initial: Config := Config(
    true, false, SmartExecution, 25, 4096, 1460, 64, [], true, 512, true, 1, true, [])

  const DefaultInstant: seq<string> := ["ClientboundHurtAnimationPacket", "ClientboundDamageEventPacket"]

  const FlushIntervalRule: IntRule := IntRule(Some(1), "Flush interval must be at least 1ms!", None, "")
  const BatchSizeRule: IntRule :=
    IntRule(Some(1), "Batch size must be > 0!", Some(4096), "Values > 4096 may cause packet loss/disconnects!")
  const BatchBytesRule: IntRule :=
    IntRule(Some(512), "MTU limit too low (<512)! Network may stall.",
            Some(64000), "> 64000 bytes is dangerous due to packet fragmentation risks")
  const MetricsIntervalRule: IntRule := IntRule(Some(1), "Interval must be at least 1 second! Provided: %s", None, "")
  const NoRule: IntRule := IntRule(None, "", None, "")

  /** `getStringList`: the list at the path, or empty. */
  function StringList(doc: Doc, path: string): seq<string> {
    if path in doc && doc[path].VList? then doc[path].items else []
  }

  /** `load` in progress: the fields assigned so far, the report, and whether an exception ended it. */
  datatype Loading = Loading(cfg: Config, report: seq<Line>, crashed: bool)

  datatype BoolField = Enabled | OptExplosions | MetricsEnabled | EmulateEvents
  datatype IntField = FlushInterval | MaxBatchSize | MaxBatchBytes | SafetyMargin | Threshold | MetricsInterval

  /** One statement of `load`; each key's path, default and checks are fixed by its field. */
  datatype Step = BoolKey(bfield: BoolField) | IntKey(ifield: IntField) | NoIoUring | ModeKey | InstantKey | IgnoredKey

  function BoolPath(f: BoolField): string {
    match f
    case Enabled => "core.enabled"
    case OptExplosions => "optimization.explosions.enabled"
    case MetricsEnabled => "metrics.enabled"
    case EmulateEvents => "compatibility.emulate-events"
  }

  function IntPath(f: IntField): string {
    match f
    case FlushInterval => "batching.flush-interval"
    case MaxBatchSize => "batching.max-batch-size"
    case MaxBatchBytes => "batching.max-batch-bytes"
    case SafetyMargin => "batching.safety-margin-bytes"
    case Threshold => "optimization.explosions.block-change-threshold"
    case MetricsInterval => "metrics.update-interval"
  }

  /** The default `load` passes for each int key; every one meets its own rule. */
  function IntDefault(f: IntField): (d: Int32)
    ensures MeetsMin(RuleOf(f), d)
    ensures RuleOf(f).warnAbove.None? || d <= RuleOf(f).warnAbove.value
  {
    match f
    case FlushInterval => 25
    case MaxBatchSize => 4096
    case MaxBatchBytes => 32000
    case SafetyMargin => 64
    case Threshold => 512
    case MetricsInterval => 1
  }

  function RuleOf(f: IntField): IntRule {
    match f
    case FlushInterval => FlushIntervalRule
    case MaxBatchSize => BatchSizeRule
    case MaxBatchBytes => BatchBytesRule
    case MetricsInterval => MetricsIntervalRule
    case _ => NoRule
  }

  const ModePath: string := "batching.mode"
  const InstantPath: string := "batching.instant-packets"
  const IgnoredPath: string := "compatibility.ignored-packets"

  function SetBool(c: Config, f: BoolField, v: bool): (r: Config)
    ensures forall g :: IntOf(r, g) == IntOf(c, g)
    ensures r.instantPackets == c.instantPackets && r.useIoUring == c.useIoUring
  {
    match f
    case Enabled => c.(enabled := v)
    case OptExplosions => c.(optExplosions := v)
    case MetricsEnabled => c.(metricsEnabled := v)
    case EmulateEvents => c.(emulateEvents := v)
  }

  function IntOf(c: Config, f: IntField): Int32 {
    match f
    case FlushInterval => c.flushInterval
    case MaxBatchSize => c.maxBatchSize
    case MaxBatchBytes => c.maxBatchBytes
    case SafetyMargin => c.safetyMargin
    case Threshold => c.threshold
    case MetricsInterval => c.metricsInterval
  }

  function SetInt(c: Config, f: IntField, v: Int32): (r: Config)
    ensures IntOf(r, f) == v
    ensures forall g | g != f :: IntOf(r, g) == IntOf(c, g)
    ensures r.instantPackets == c.instantPackets && r.useIoUring == c.useIoUring
  {
    match f
    case FlushInterval => c.(flushInterval := v)
    case MaxBatchSize => c.(maxBatchSize := v)
    case MaxBatchBytes => c.(maxBatchBytes := v)
    case SafetyMargin => c.(safetyMargin := v)
    case Threshold => c.(threshold := v)
    case MetricsInterval => c.(metricsInterval := v)
  }

  /** The statements of `load` after the report is cleared, in source order. */
  const Chain: seq<Step> := [
    BoolKey(Enabled), NoIoUring, ModeKey,
    IntKey(FlushInterval), IntKey(MaxBatchSize), IntKey(MaxBatchBytes), IntKey(SafetyMargin),
    InstantKey, BoolKey(OptExplosions), IntKey(Threshold), BoolKey(MetricsEnabled),
    IntKey(MetricsInterval), BoolKey(EmulateEvents), IgnoredKey]

  /** The int keys `load` reads, in order. */
  function IntSettingOf(doc: Doc, f: IntField, report: seq<Line>): Result<(Int32, seq<Line>), Crash> {
    IntSetting(doc, IntPath(f), IntDefault(f), RuleOf(f), report)
  }

  /** A step whose cast fails on this document. */
  predicate Crashes(doc: Doc, step: Step) {
    step.IntKey? && IntPath(step.ifield) in doc && doc[IntPath(step.ifield)].VNumber?
  }

  /** The fields after a statement that did not throw. */
  function Written(c: Config, doc: Doc, step: Step, report: seq<Line>): (r: Config)
    ensures step.IntKey? && !Crashes(doc, step) ==>
      var out := IntSettingOf(doc, step.ifield, report);
      out.Success? && r == SetInt(c, step.ifield, out.value.0)
    ensures !step.IntKey? ==> forall f :: IntOf(r, f) == IntOf(c, f)
    ensures step.InstantKey? ==> r.instantPackets != []
    ensures !step.InstantKey? ==> r.instantPackets == c.instantPackets
    ensures step.NoIoUring? ==> !r.useIoUring
    ensures !step.NoIoUring? ==> r.useIoUring == c.useIoUring
  {
    match step
    case BoolKey(f) => SetBool(c, f, BoolSetting(doc, BoolPath(f), true, report).0)
    case IntKey(f) =>
      var out := IntSettingOf(doc, f, report);
      if out.Success? then SetInt(c, f, out.value.0) else c
    case NoIoUring => c.(useIoUring := false)
    case ModeKey => c.(mode := if ModePath in doc then ParseMode(doc[ModePath]) else SmartExecution)
    case InstantKey =>
      var names := StringList(doc, InstantPath);
      c.(instantPackets := if names == [] then DefaultInstant else names)
    case IgnoredKey => c.(ignoredPackets := StringList(doc, IgnoredPath))
  }

  /** The report after a statement that did not throw: unchanged, or one four-line entry more. */
  function Reported(doc: Doc, step: Step, report: seq<Line>): (r: seq<Line>)
    ensures Extends(report, r) && (|r| == |report| || |r| == |report| + 4)
  {
    match step
    case BoolKey(f) => BoolSetting(doc, BoolPath(f), true, report).1
    case IntKey(f) =>
      var out := IntSettingOf(doc, f, report);
      if out.Success? then out.value.1 else report
    case _ => report
  }

  /**
   * One statement. An int key whose cast fails ends `load`: the catch
   * block appends a critical line, and the fields assigned so far stay.
   */
  function StepOnce(st: Loading, doc: Doc, step: Step): (r: Loading)
    ensures st.crashed ==> r == st
    ensures !st.crashed ==> (r.crashed <==> Crashes(doc, step))
    ensures st.report <= r.report
    ensures !st.crashed && r.crashed ==> r == Loading(st.cfg, st.report + [CriticalNote], true)
    ensures !r.crashed ==> r.cfg == Written(st.cfg, doc, step, st.report) || st.crashed
    ensures !r.crashed ==> Extends(st.report, r.report)
    ensures !r.crashed ==> |r.report| == |st.report| || |r.report| == |st.report| + 4
  {
    if st.crashed then st
    else if Crashes(doc, step) then Loading(st.cfg, st.report + [CriticalNote], true)
    else Loading(Written(st.cfg, doc, step, st.report), Reported(doc, step, st.report), false)
  }

  function RunFrom(st: Loading, doc: Doc, steps: seq<Step>): Loading
    decreases |steps|
  {
    if steps == [] then st else RunFrom(StepOnce(st, doc, steps[0]), doc, steps[1..])
  }

  datatype Loaded = Loaded(config: Config, report: seq<Line>, result: bool)

  /** The whole chain of `load`, from a cleared report and the fields as they were. */
  function Run(doc: Doc, prior: Config): Loading {
    RunFrom(Loading(prior, [], false), doc, Chain)
  }

  /** No int key of the document holds a number that is not an Integer. */
  predicate IntsWellTyped(doc: Doc) {
    forall f: IntField :: !(IntPath(f) in doc && doc[IntPath(f)].VNumber?)
  }

  /**
   * `load()`: the new field values, the report, and the returned flag. It
   * returns true exactly when something was reported. The critical line is
   * reported exactly when an int key holds a non-Integer number, and the
   * report is otherwise made of four-line entries. Without such a number
   * every validated field meets its bound, and an empty file loads the
   * documented defaults with nothing reported.
   */
  function Load(doc: Doc, prior: Config): (r: Loaded)
    ensures r.result <==> r.report != []
    ensures CriticalNote in r.report <==> exists s | s in Chain :: Crashes(doc, s)
    ensures |r.report| % 4 == (if CriticalNote in r.report then 1 else 0)
    ensures IntsWellTyped(doc) ==>
      && r.config.flushInterval >= 1 && r.config.maxBatchSize >= 1 && r.config.maxBatchBytes >= 512
      && r.config.metricsInterval >= 1 && r.config.instantPackets != [] && !r.config.useIoUring
    ensures doc == map[] ==> r == Loaded(Defaults, [], false)
  {
    LoadCrashIff(doc, prior);
    LoadedValuesValid(doc, prior);
    LoadEmptyDefaults(prior);
    var st := Run(doc, prior);
    Loaded(st.cfg, st.report, st.report != [])
  }

  // ---------------------------------------------------------------------------
  // Properties of load

  /** A run ends in a crash exactly when it started crashed or one of its int keys holds a non-Integer number. */
  lemma {:induction false} RunCrashes(st: Loading, doc: Doc, steps: seq<Step>)
    ensures RunFrom(st, doc, steps).crashed <==> st.crashed || exists s | s in steps :: Crashes(doc, s)
    decreases |steps|
  {
    if steps != [] {
      RunCrashes(StepOnce(st, doc, steps[0]), doc, steps[1..]);
      assert steps == [steps[0]] + steps[1..];
    }
  }

  /** The critical line appears exactly when the run crashed. */
  lemma {:induction false} RunCritical(st: Loading, doc: Doc, steps: seq<Step>)
    requires CriticalNote !in st.report && !st.crashed
    ensures CriticalNote in RunFrom(st, doc, steps).report <==> RunFrom(st, doc, steps).crashed
    decreases |steps|
  {
    if steps != [] {
      var st1 := StepOnce(st, doc, steps[0]);
      if st1.crashed {
        RunStaysCrashed(st1, doc, steps[1..]);
        assert st1.report[|st.report|] == CriticalNote;
      } else {
        ExtendsKeepsClean(st.report, st1.report);
        RunCritical(st1, doc, steps[1..]);
      }
    }
  }

  /** Every entry of the report is four lines; a crash adds the one critical line. */
  lemma {:induction false} RunLength(st: Loading, doc: Doc, steps: seq<Step>)
    requires !st.crashed && |st.report| % 4 == 0
    ensures |RunFrom(st, doc, steps).report| % 4 == (if RunFrom(st, doc, steps).crashed then 1 else 0)
    decreases |steps|
  {
    if steps != [] {
      var st1 := StepOnce(st, doc, steps[0]);
      var n := |st.report|;
      if st1.crashed {
        RunStaysCrashed(st1, doc, steps[1..]);
        assert |st1.report| == n + 1;
      } else {
        assert |st1.report| == n || |st1.report| == n + 4;
        RunLength(st1, doc, steps[1..]);
      }
    }
  }

  lemma {:induction false} RunStaysCrashed(st: Loading, doc: Doc, steps: seq<Step>)
    requires st.crashed
    ensures RunFrom(st, doc, steps) == st
    decreases |steps|
  {
    if steps != [] {
      RunStaysCrashed(StepOnce(st, doc, steps[0]), doc, steps[1..]);
    }
  }

  /** After a run that writes an int field, the field meets that field's rule. */
  lemma {:induction false} IntFieldMeetsRule(st: Loading, doc: Doc, steps: seq<Step>, f: IntField)
    requires !RunFrom(st, doc, steps).crashed
    requires MeetsMin(RuleOf(f), IntOf(st.cfg, f)) || IntKey(f) in steps
    ensures MeetsMin(RuleOf(f), IntOf(RunFrom(st, doc, steps).cfg, f))
    decreases |steps|
  {
    if steps != [] {
      var st1 := StepOnce(st, doc, steps[0]);
      if st1.crashed {
        RunStaysCrashed(st1, doc, steps[1..]);
      } else {
        assert steps == [steps[0]] + steps[1..];
        IntFieldMeetsRule(st1, doc, steps[1..], f);
      }
    }
  }

  /** The instant list is never empty once its step has run. */
  lemma {:induction false} InstantListSettled(st: Loading, doc: Doc, steps: seq<Step>)
    requires !RunFrom(st, doc, steps).crashed
    ensures st.cfg.instantPackets != [] || InstantKey in steps ==>
      RunFrom(st, doc, steps).cfg.instantPackets != []
    ensures !st.cfg.useIoUring || NoIoUring in steps ==>
      !RunFrom(st, doc, steps).cfg.useIoUring
    decreases |steps|
  {
    if steps != [] {
      var st1 := StepOnce(st, doc, steps[0]);
      if st1.crashed {
        RunStaysCrashed(st1, doc, steps[1..]);
      } else {
        assert steps == [steps[0]] + steps[1..];
        InstantListSettled(st1, doc, steps[1..]);
      }
    }
  }

  /** The chain crashes exactly when an int key holds a non-Integer number; its report then holds the critical line. */
  lemma LoadCrashIff(doc: Doc, prior: Config)
    ensures CriticalNote in Run(doc, prior).report <==> exists s | s in Chain :: Crashes(doc, s)
    ensures |Run(doc, prior).report| % 4 == (if CriticalNote in Run(doc, prior).report then 1 else 0)
  {
    var st0 := Loading(prior, [], false);
    RunCrashes(st0, doc, Chain);
    RunCritical(st0, doc, Chain);
    RunLength(st0, doc, Chain);
  }

  /** A run of the whole chain that does not crash leaves every validated field within its bound. */
  lemma ChainValid(st0: Loading, doc: Doc)
    requires !RunFrom(st0, doc, Chain).crashed
    ensures var c := RunFrom(st0, doc, Chain).cfg;
      && c.flushInterval >= 1 && c.maxBatchSize >= 1 && c.maxBatchBytes >= 512 && c.metricsInterval >= 1
      && c.instantPackets != [] && !c.useIoUring
  {
    var c := RunFrom(st0, doc, Chain).cfg;
    IntFieldMeetsRule(st0, doc, Chain, FlushInterval);
    IntFieldMeetsRule(st0, doc, Chain, MaxBatchSize);
    IntFieldMeetsRule(st0, doc, Chain, MaxBatchBytes);
    IntFieldMeetsRule(st0, doc, Chain, MetricsInterval);
    RulesBound(c);
    InstantListSettled(st0, doc, Chain);
  }

  lemma RulesBound(c: Config)
    requires MeetsMin(RuleOf(FlushInterval), IntOf(c, FlushInterval))
    requires MeetsMin(RuleOf(MaxBatchSize), IntOf(c, MaxBatchSize))
    requires MeetsMin(RuleOf(MaxBatchBytes), IntOf(c, MaxBatchBytes))
    requires MeetsMin(RuleOf(MetricsInterval), IntOf(c, MetricsInterval))
    ensures c.flushInterval >= 1 && c.maxBatchSize >= 1 && c.maxBatchBytes >= 512 && c.metricsInterval >= 1
  {
  }

  /**
   * Unless an int key holds a non-Integer number, every validated int field
   * meets its bound, the instant list is never empty, and native transport
   * stays off.
   */
  lemma LoadedValuesValid(doc: Doc, prior: Config)
    ensures IntsWellTyped(doc) ==>
      var c := Run(doc, prior).cfg;
      && c.flushInterval >= 1 && c.maxBatchSize >= 1 && c.maxBatchBytes >= 512 && c.metricsInterval >= 1
      && c.instantPackets != [] && !c.useIoUring
  {
    if IntsWellTyped(doc) {
      var st0 := Loading(prior, [], false);
      RunCrashes(st0, doc, Chain);
      assert forall s | s in Chain :: !Crashes(doc, s);
      ChainValid(st0, doc);
    }
  }

  /** What `load` assigns to each field when the file has no value for it. */
  const Defaults: Config := Config(
    true, false, SmartExecution, 25, 4096, 32000, 64, DefaultInstant, true, 512, true, 1, true, [])

  /** A step whose key is absent assigns the default it names, and reports nothing. */
  function Defaulted(c: Config, step: Step): Config {
    match step
    case BoolKey(f) => DefaultBool(c, f)
    case IntKey(f) => DefaultInt(c, f)
    case NoIoUring => c.(useIoUring := false)
    case ModeKey => c.(mode := SmartExecution)
    case InstantKey => c.(instantPackets := DefaultInstant)
    case IgnoredKey => c.(ignoredPackets := [])
  }

  /** The defaults as `load` spells them out at each call. */
  function DefaultBool(c: Config, f: BoolField): Config {
    match f
    case Enabled => c.(enabled := true)
    case OptExplosions => c.(optExplosions := true)
    case MetricsEnabled => c.(metricsEnabled := true)
    case EmulateEvents => c.(emulateEvents := true)
  }

  function DefaultInt(c: Config, f: IntField): Config {
    match f
    case FlushInterval => c.(flushInterval := 25)
    case MaxBatchSize => c.(maxBatchSize := 4096)
    case MaxBatchBytes => c.(maxBatchBytes := 32000)
    case SafetyMargin => c.(safetyMargin := 64)
    case Threshold => c.(threshold := 512)
    case MetricsInterval => c.(metricsInterval := 1)
  }

  function FoldDefaults(c: Config, steps: seq<Step>): Config
    decreases |steps|
  {
    if steps == [] then c else FoldDefaults(Defaulted(c, steps[0]), steps[1..])
  }

  /** On an empty document every step assigns its default and reports nothing. */
  lemma {:induction false} RunEmptyDoc(st: Loading, steps: seq<Step>)
    requires !st.crashed
    ensures RunFrom(st, map[], steps) == Loading(FoldDefaults(st.cfg, steps), st.report, false)
    decreases |steps|
  {
    if steps != [] {
      var st1 := StepOnce(st, map[], steps[0]);
      assert st1 == Loading(Defaulted(st.cfg, steps[0]), st.report, false);
      RunEmptyDoc(st1, steps[1..]);
    }
  }

  /** The `k`-th statement of the chain, by position; `ChainAt` ties it to the sequence. */
  function StepAt(k: nat): Step {
    match k
    case 0 => BoolKey(Enabled)
    case 1 => NoIoUring
    case 2 => ModeKey
    case 3 => IntKey(FlushInterval)
    case 4 => IntKey(MaxBatchSize)
    case 5 => IntKey(MaxBatchBytes)
    case 6 => IntKey(SafetyMargin)
    case 7 => InstantKey
    case 8 => BoolKey(OptExplosions)
    case 9 => IntKey(Threshold)
    case 10 => BoolKey(MetricsEnabled)
    case 11 => IntKey(MetricsInterval)
    case 12 => BoolKey(EmulateEvents)
    case _ => IgnoredKey
  }

  /** The chain, statement by statement. */
  lemma ChainAt()
    ensures |Chain| == 14 && forall k | 0 <= k < 14 :: Chain[k] == StepAt(k)
  {
  }

  /** Folding from position `k` applies the `k`-th statement first. */
  lemma FoldStep(c: Config, k: nat)
    requires k < |Chain|
    ensures FoldDefaults(c, Chain[k..]) == FoldDefaults(Defaulted(c, Chain[k]), Chain[k + 1..])
  {
    assert Chain[k..][1..] == Chain[k + 1..];
  }

  /** The first `k` statements of the chain applied to `c` with every key absent. */
  function Through(c: Config, k: nat): Config
  {
    if k == 0 then c else Defaulted(Through(c, k - 1), StepAt(k - 1))
  }

  /** Folding the chain is folding its first `k` statements, then the rest. */
  lemma {:induction false} FoldSplit(c: Config, k: nat)
    requires k <= 14
    ensures FoldDefaults(c, Chain) == FoldDefaults(Through(c, k), Chain[k..])
  {
    if k > 0 {
      FoldSplit(c, k - 1);
      ChainAt();
      FoldStep(Through(c, k - 1), k - 1);
    }
  }

  /** All fourteen statements with every key absent assign exactly the defaults, whatever came before. */
  lemma ThroughAll(prior: Config)
    ensures Through(prior, 14) == Defaults
  {
    // One statement at a time, so that the solver unfolds each once.
    assert Through(prior, 1) == Defaulted(Through(prior, 0), StepAt(0));
    assert Through(prior, 2) == Defaulted(Through(prior, 1), StepAt(1));
    assert Through(prior, 3) == Defaulted(Through(prior, 2), StepAt(2));
    assert Through(prior, 4) == Defaulted(Through(prior, 3), StepAt(3));
    assert Through(prior, 5) == Defaulted(Through(prior, 4), StepAt(4));
    assert Through(prior, 6) == Defaulted(Through(prior, 5), StepAt(5));
    assert Through(prior, 7) == Defaulted(Through(prior, 6), StepAt(6));
    assert Through(prior, 8) == Defaulted(Through(prior, 7), StepAt(7));
    assert Through(prior, 9) == Defaulted(Through(prior, 8), StepAt(8));
    assert Through(prior, 10) == Defaulted(Through(prior, 9), StepAt(9));
    assert Through(prior, 11) == Defaulted(Through(prior, 10), StepAt(10));
    assert Through(prior, 12) == Defaulted(Through(prior, 11), StepAt(11));
    assert Through(prior, 13) == Defaulted(Through(prior, 12), StepAt(12));
    assert Through(prior, 14) == Defaulted(Through(prior, 13), StepAt(13));
  }

  /** An empty file runs the chain to the documented defaults, whatever was loaded before, and reports nothing. */
  lemma LoadEmptyDefaults(prior: Config)
    ensures Run(map[], prior) == Loading(Defaults, [], false)
  {
    RunEmptyDoc(Loading(prior, [], false), Chain);
    FoldChainDefaults(prior);
  }

  lemma FoldChainDefaults(prior: Config)
    ensures FoldDefaults(prior, Chain) == Defaults
  {
    FoldSplit(prior, 14);
    assert Chain[14..] == [];
    ThroughAll(prior);
  }
}
