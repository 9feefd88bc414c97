/**
 * The zap-to-OpenTelemetry log bridge: a zap core that filters entries by
 * level, accumulates context fields, and turns each written entry into one
 * OpenTelemetry log record that it hands to its logger.
 *
 * Severities are the SeverityNumber values of the OpenTelemetry Logs Data
 * Model (1-4 TRACE, 5-8 DEBUG, 9-12 INFO, 13-16 WARN, 17-20 ERROR,
 * 21-24 FATAL; 0 is unspecified).
 */
module Bridge {
  import opened Wrappers

  type Int8 = x: int | -0x80 <= x < 0x80
  type Int64 = x: int | -0x8000_0000_0000_0000 <= x < 0x8000_0000_0000_0000

  /** A point in time, in nanoseconds; only ever copied or formatted. */
  type Time = int

  // ---------------------------------------------------------------------------
  // Levels and severities
  // ---------------------------------------------------------------------------

  /** `zapcore.Level`, a signed byte. */
  type Level = Int8

  const DebugLevel: Level := -1
  const InfoLevel: Level := 0
  const WarnLevel: Level := 1
  const ErrorLevel: Level := 2
  const DPanicLevel: Level := 3
  const PanicLevel: Level := 4
  const FatalLevel: Level := 5

  predicate IsDefinedLevel(l: Level) {
    DebugLevel <= l <= FatalLevel
  }

  /** `log.Severity`. */
  type Severity = x: int | 0 <= x <= 24

  const SeverityDebug: Severity := 5
  const SeverityInfo: Severity := 9
  const SeverityWarn: Severity := 13
  const SeverityError: Severity := 17
  const SeverityFatal: Severity := 21

  function DigitChar(d: nat): char
    requires d < 10
  {
    "0123456789"[d]
  }

  function DecimalDigits(n: nat): string
    decreases n
  {
    if n < 10 then [DigitChar(n)] else DecimalDigits(n / 10) + [DigitChar(n % 10)]
  }

  function IntToDecimal(i: int): string {
    if i < 0 then "-" + DecimalDigits(-i) else DecimalDigits(i)
  }

  /** `zapcore.Level.String`: the level's lower-case name, or `Level(n)` for an undefined level. */
  function LevelText(l: Level): string {
    if l == DebugLevel then "debug"
    else if l == InfoLevel then "info"
    else if l == WarnLevel then "warn"
    else if l == ErrorLevel then "error"
    else if l == DPanicLevel then "dpanic"
    else if l == PanicLevel then "panic"
    else if l == FatalLevel then "fatal"
    else "Level(" + IntToDecimal(l) + ")"
  }

  /** `zapLevelToOTelSeverity`: every result is the lowest number of one of the ranges DEBUG to FATAL. */
  function ToSeverity(l: Level): (r: Severity)
    ensures r % 4 == 1 && SeverityDebug <= r <= SeverityFatal
  {
    if l == DebugLevel then SeverityDebug
    else if l == InfoLevel then SeverityInfo
    else if l == WarnLevel then SeverityWarn
    else if l == ErrorLevel then SeverityError
    else if l == DPanicLevel then SeverityError
    else if l == PanicLevel then SeverityFatal
    else if l == FatalLevel then SeverityFatal
    else SeverityInfo
  }

  /** The mapping level by level; every level outside the seven defined ones reads as INFO. */
  lemma SeverityTable(l: Level)
    ensures l == DebugLevel ==> ToSeverity(l) == 5
    ensures l == InfoLevel ==> ToSeverity(l) == 9
    ensures l == WarnLevel ==> ToSeverity(l) == 13
    ensures l == ErrorLevel || l == DPanicLevel ==> ToSeverity(l) == 17
    ensures l == PanicLevel || l == FatalLevel ==> ToSeverity(l) == 21
    ensures !IsDefinedLevel(l) ==> ToSeverity(l) == SeverityInfo
    ensures ToSeverity(l) % 4 == 1 && SeverityDebug <= ToSeverity(l) <= SeverityFatal
  {
  }

  /** On the defined levels the mapping never lowers the severity of a more severe level. */
  lemma SeverityMonotone(a: Level, b: Level)
    requires IsDefinedLevel(a) && IsDefinedLevel(b) && a <= b
    ensures ToSeverity(a) <= ToSeverity(b)
  {
  }

  // ---------------------------------------------------------------------------
  // Fields and attribute values
  // ---------------------------------------------------------------------------

  /** `zapcore.FieldType`, without the two floating-point kinds. */
  datatype FieldType =
    | UnknownType | ArrayMarshalerType | ObjectMarshalerType | BinaryType | BoolType
    | ByteStringType | Complex128Type | Complex64Type | DurationType
    | Int64Type | Int32Type | Int16Type | Int8Type | StringType | TimeType | TimeFullType
    | Uint64Type | Uint32Type | Uint16Type | Uint8Type | UintptrType
    | ReflectType | NamespaceType | StringerType | ErrorType | SkipType | InlineMarshalerType

  predicate IsIntegerKind(t: FieldType) {
    t.Int8Type? || t.Int16Type? || t.Int32Type? || t.Int64Type? ||
    t.Uint8Type? || t.Uint16Type? || t.Uint32Type? || t.Uint64Type?
  }

  /** The kinds the bridge sends to its fallback branch. */
  predicate IsFallbackKind(t: FieldType) {
    !(IsIntegerKind(t) || t.BoolType? || t.StringType? || t.DurationType? ||
      t.TimeType? || t.ErrorType? || t.ReflectType? || t.StringerType?)
  }

  /** The dynamic content of `Field.Interface`, as far as the bridge looks at it. */
  datatype Dynamic =
    | Nil
    | TimeValue(instant: Time)   // a time.Time
    | ErrorValue(text: string)   // an error; `text` is what its Error method returns
    | OtherValue                 // anything else

  /** `zapcore.Field`. */
  datatype Field = Field(key: string, kind: FieldType, integer: Int64, str: string, iface: Dynamic)

  /** `log.Value`, without the float, bytes, slice and map kinds the bridge never produces. */
  datatype Value = EmptyValue | BoolValue(b: bool) | Int64Value(i: Int64) | StringValue(s: string)

  datatype KeyValue = KeyValue(key: string, value: Value)

  /** The two formatting routines of Go's time package that the bridge calls, left abstract. */
  datatype Formatters = Formatters(duration: Int64 -> string, rfc3339: Time -> string)

  /** A field that adds no attribute: a missing or mistyped Interface for the kinds that use it. */
  predicate Dropped(f: Field) {
    (f.kind.TimeType? && !f.iface.TimeValue?) ||
    (f.kind.ErrorType? && !f.iface.ErrorValue?) ||
    ((f.kind.ReflectType? || f.kind.StringerType?) && f.iface.Nil?)
  }

  /** The attributes `addFieldToRecord` adds for one field. */
  function FieldAttributes(f: Field, fmt: Formatters): (r: seq<KeyValue>)
    ensures |r| <= 1
    ensures forall kv :: kv in r ==> kv.key == f.key
    ensures r == [] <==> Dropped(f)
  {
    match f.kind
    case BoolType => [KeyValue(f.key, BoolValue(f.integer == 1))]
    case Int8Type | Int16Type | Int32Type | Int64Type | Uint8Type | Uint16Type | Uint32Type | Uint64Type =>
      [KeyValue(f.key, Int64Value(f.integer))]
    case StringType => [KeyValue(f.key, StringValue(f.str))]
    case DurationType => [KeyValue(f.key, StringValue(fmt.duration(f.integer)))]
    case TimeType =>
      (match f.iface
       case TimeValue(t) => [KeyValue(f.key, StringValue(fmt.rfc3339(t)))]
       case _ => [])
    case ErrorType =>
      (match f.iface
       case ErrorValue(text) => [KeyValue(f.key, StringValue(text))]
       case _ => [])
    case ReflectType | StringerType =>
      if f.iface.Nil? then [] else [KeyValue(f.key, StringValue(f.str))]
    case _ => [KeyValue(f.key, StringValue(f.str))]
  }

  /** Which value each kind of field becomes. */
  lemma FieldTranslation(f: Field, fmt: Formatters)
    ensures f.kind.BoolType? ==> FieldAttributes(f, fmt) == [KeyValue(f.key, BoolValue(f.integer == 1))]
    ensures IsIntegerKind(f.kind) ==> FieldAttributes(f, fmt) == [KeyValue(f.key, Int64Value(f.integer))]
    ensures f.kind.StringType? || IsFallbackKind(f.kind) ==> FieldAttributes(f, fmt) == [KeyValue(f.key, StringValue(f.str))]
    ensures f.kind.DurationType? ==> FieldAttributes(f, fmt) == [KeyValue(f.key, StringValue(fmt.duration(f.integer)))]
    ensures f.kind.TimeType? && f.iface.TimeValue? ==> FieldAttributes(f, fmt) == [KeyValue(f.key, StringValue(fmt.rfc3339(f.iface.instant)))]
    ensures f.kind.ErrorType? && f.iface.ErrorValue? ==> FieldAttributes(f, fmt) == [KeyValue(f.key, StringValue(f.iface.text))]
    ensures (f.kind.ReflectType? || f.kind.StringerType?) && !f.iface.Nil? ==> FieldAttributes(f, fmt) == [KeyValue(f.key, StringValue(f.str))]
  {
  }

  /** The attributes of a run of fields, in order. */
  function FieldsAttributes(fs: seq<Field>, fmt: Formatters): (r: seq<KeyValue>)
    ensures |r| <= |fs|
    decreases |fs|
  {
    if fs == [] then []
    else FieldsAttributes(fs[..|fs| - 1], fmt) + FieldAttributes(fs[|fs| - 1], fmt)
  }

  /** Translating two runs of fields one after the other is translating their concatenation. */
  lemma {:induction false} FieldsAttributesAppend(a: seq<Field>, b: seq<Field>, fmt: Formatters)
    ensures FieldsAttributes(a + b, fmt) == FieldsAttributes(a, fmt) + FieldsAttributes(b, fmt)
    decreases |b|
  {
    if b != [] {
      var b' := b[..|b| - 1];
      assert (a + b)[..|a + b| - 1] == a + b';
      assert (a + b)[|a + b| - 1] == b[|b| - 1];
      assert FieldsAttributes(a + b, fmt) == FieldsAttributes(a + b', fmt) + FieldAttributes(b[|b| - 1], fmt);
      assert FieldsAttributes(b, fmt) == FieldsAttributes(b', fmt) + FieldAttributes(b[|b| - 1], fmt);
      FieldsAttributesAppend(a, b', fmt);
    } else {
      assert a + b == a;
    }
  }

  lemma FieldsAttributesStep(fs: seq<Field>, i: nat, fmt: Formatters)
    requires i < |fs|
    ensures FieldsAttributes(fs[..i + 1], fmt) == FieldsAttributes(fs[..i], fmt) + FieldAttributes(fs[i], fmt)
  {
    assert fs[..i + 1][..i] == fs[..i];
  }

  /** The fields that are not dropped, in order. */
  function KeptFields(fs: seq<Field>): (r: seq<Field>)
    decreases |fs|
  {
    if fs == [] then []
    else KeptFields(fs[..|fs| - 1]) + (if Dropped(fs[|fs| - 1]) then [] else [fs[|fs| - 1]])
  }

  /** The i-th attribute is keyed by the i-th field that is not dropped: one attribute per kept field, in order. */
  lemma {:induction false} AttributesFollowKeptFields(fs: seq<Field>, fmt: Formatters)
    ensures var attrs := FieldsAttributes(fs, fmt);
      var kept := KeptFields(fs);
      |attrs| == |kept| && forall j :: 0 <= j < |attrs| ==> attrs[j].key == kept[j].key
    decreases |fs|
  {
    if fs != [] {
      AttributesFollowKeptFields(fs[..|fs| - 1], fmt);
    }
  }

  /** A run of fields yields one attribute per field exactly when none of them is dropped. */
  lemma {:induction false} NoFieldLost(fs: seq<Field>, fmt: Formatters)
    ensures |FieldsAttributes(fs, fmt)| == |fs| <==> forall i :: 0 <= i < |fs| ==> !Dropped(fs[i])
    decreases |fs|
  {
    if fs != [] {
      var init := fs[..|fs| - 1];
      NoFieldLost(init, fmt);
      assert forall i :: 0 <= i < |init| ==> init[i] == fs[i];
    }
  }

  // ---------------------------------------------------------------------------
  // Field constructors as zap builds them
  // ---------------------------------------------------------------------------

  /** `zap.Bool`: the flag is stored as 1 or 0. */
  function BoolField(key: string, b: bool): Field {
    Field(key, BoolType, if b then 1 else 0, "", Nil)
  }

  /** `zap.Int64`. */
  function Int64Field(key: string, v: Int64): Field {
    Field(key, Int64Type, v, "", Nil)
  }

  /** `zap.Uint64`: the value is stored through a conversion to int64, which wraps. */
  function Uint64Field(key: string, v: nat): Field
    requires v < 0x1_0000_0000_0000_0000
  {
    Field(key, Uint64Type, if v < 0x8000_0000_0000_0000 then v else v - 0x1_0000_0000_0000_0000, "", Nil)
  }

  /** `zap.String`. */
  function StringField(key: string, s: string): Field {
    Field(key, StringType, 0, s, Nil)
  }

  /** `zap.NamedError` with a non-nil error. */
  function ErrorField(key: string, text: string): Field {
    Field(key, ErrorType, 0, "", ErrorValue(text))
  }

  /** Booleans, signed integers, strings and errors come out as the value they were logged with. */
  lemma ConstructedFieldsRoundTrip(key: string, b: bool, i: Int64, s: string, fmt: Formatters)
    ensures FieldAttributes(BoolField(key, b), fmt) == [KeyValue(key, BoolValue(b))]
    ensures FieldAttributes(Int64Field(key, i), fmt) == [KeyValue(key, Int64Value(i))]
    ensures FieldAttributes(StringField(key, s), fmt) == [KeyValue(key, StringValue(s))]
    ensures FieldAttributes(ErrorField(key, s), fmt) == [KeyValue(key, StringValue(s))]
  {
  }

  /** An unsigned value from 2^63 up is reported as the negative int64 it wraps to. */
  lemma Uint64FieldWraps(key: string, v: nat, fmt: Formatters)
    requires v < 0x1_0000_0000_0000_0000
    ensures v < 0x8000_0000_0000_0000 ==> FieldAttributes(Uint64Field(key, v), fmt) == [KeyValue(key, Int64Value(v))]
    ensures v >= 0x8000_0000_0000_0000 ==>
      FieldAttributes(Uint64Field(key, v), fmt) == [KeyValue(key, Int64Value(v - 0x1_0000_0000_0000_0000))]
  {
  }

  // ---------------------------------------------------------------------------
  // Entries, records and their entry attributes
  // ---------------------------------------------------------------------------

  /** `zapcore.EntryCaller`. */
  datatype EntryCaller = EntryCaller(defined: bool, file: string, line: Int64, func: string)

  /** `zapcore.Entry`. */
  datatype Entry = Entry(level: Level, time: Time, loggerName: string, message: string, caller: EntryCaller, stack: string)

  /** `log.Record`, restricted to what the bridge sets. */
  datatype Record = Record(timestamp: Time, severity: Severity, severityText: string, body: Value, attributes: seq<KeyValue>)

  /** The caller, logger-name and stack attributes `Write` adds after the fields. */
  function EntryAttributes(e: Entry): seq<KeyValue> {
    (if e.caller.defined then
       [KeyValue("caller.file", StringValue(e.caller.file)),
        KeyValue("caller.function", StringValue(e.caller.func)),
        KeyValue("caller.line", Int64Value(e.caller.line))]
     else []) +
    (if e.loggerName != "" then [KeyValue("logger.name", StringValue(e.loggerName))] else []) +
    (if e.stack != "" then [KeyValue("stack", StringValue(e.stack))] else [])
  }

  datatype CallerInfo = CallerInfo(file: string, func: string, line: Int64)

  /** What of an entry, besides level, time and message, a record carries. */
  datatype EntryMeta = EntryMeta(caller: Option<CallerInfo>, loggerName: string, stack: string)

  function MetaOf(e: Entry): EntryMeta {
    EntryMeta(
      if e.caller.defined then Some(CallerInfo(e.caller.file, e.caller.func, e.caller.line)) else None,
      e.loggerName, e.stack)
  }

  function DecodeCaller(kvs: seq<KeyValue>): (Option<CallerInfo>, seq<KeyValue>) {
    if |kvs| >= 3 &&
       kvs[0].key == "caller.file" && kvs[0].value.StringValue? &&
       kvs[1].key == "caller.function" && kvs[1].value.StringValue? &&
       kvs[2].key == "caller.line" && kvs[2].value.Int64Value?
    then (Some(CallerInfo(kvs[0].value.s, kvs[1].value.s, kvs[2].value.i)), kvs[3..])
    else (None, kvs)
  }

  /** An optional string attribute under `key` at the head of `kvs`; absent reads as "". */
  function DecodeOptional(kvs: seq<KeyValue>, key: string): (string, seq<KeyValue>) {
    if |kvs| >= 1 && kvs[0].key == key && kvs[0].value.StringValue? then (kvs[0].value.s, kvs[1..])
    else ("", kvs)
  }

  /** Reads back what `EntryAttributes` produces; see `EntryAttributesRoundTrip`. */
  function DecodeEntryAttributes(kvs: seq<KeyValue>): Option<EntryMeta> {
    var (caller, r1) := DecodeCaller(kvs);
    var (name, r2) := DecodeOptional(r1, "logger.name");
    var (stack, r3) := DecodeOptional(r2, "stack");
    if r3 == [] then Some(EntryMeta(caller, name, stack)) else None
  }

  /** Leaving out empty logger names and stacks and undefined callers loses nothing. */
  lemma EntryAttributesRoundTrip(e: Entry)
    ensures DecodeEntryAttributes(EntryAttributes(e)) == Some(MetaOf(e))
  {
    var callerPart := if e.caller.defined then
       [KeyValue("caller.file", StringValue(e.caller.file)),
        KeyValue("caller.function", StringValue(e.caller.func)),
        KeyValue("caller.line", Int64Value(e.caller.line))]
     else [];
    var namePart := if e.loggerName != "" then [KeyValue("logger.name", StringValue(e.loggerName))] else [];
    var stackPart := if e.stack != "" then [KeyValue("stack", StringValue(e.stack))] else [];
    assert EntryAttributes(e) == callerPart + (namePart + stackPart);
    assert "logger.name" != "caller.file" && "stack" != "caller.file" && "stack" != "logger.name" by {
      assert "logger.name"[0] != "caller.file"[0];
      assert |"stack"| != |"caller.file"| && |"stack"| != |"logger.name"|;
    }
    if e.caller.defined {
      assert (callerPart + (namePart + stackPart))[3..] == namePart + stackPart;
    } else {
      assert callerPart + (namePart + stackPart) == namePart + stackPart;
    }
    assert DecodeCaller(callerPart + (namePart + stackPart)) == (MetaOf(e).caller, namePart + stackPart);
    if e.loggerName != "" {
      assert (namePart + stackPart)[1..] == stackPart;
    } else {
      assert namePart + stackPart == stackPart;
    }
    assert DecodeOptional(namePart + stackPart, "logger.name") == (e.loggerName, stackPart);
    if e.stack != "" {
      assert stackPart[1..] == [];
    }
    assert DecodeOptional(stackPart, "stack") == (e.stack, []);
  }

  // ---------------------------------------------------------------------------
  // The core
  // ---------------------------------------------------------------------------

  /** `context.Context`, carried through to the logger untouched. */
  datatype Context = Background | Derived(id: nat)

  datatype Emission = Emission(ctx: Context, record: Record)

  /** `log.Logger`: `Emit` hands the record over; the model keeps the records it was given. */
  class Logger {
    const name: string
    var emitted: seq<Emission>

    constructor (name: string)
      ensures this.name == name && emitted == []
    {
      this.name := name;
      emitted := [];
    }

    method Emit(ctx: Context, record: Record)
      modifies this
      ensures emitted == old(emitted) + [Emission(ctx, record)]
    {
      emitted := emitted + [Emission(ctx, record)];
    }
  }

  /** `OTelCore`: its fields never change; `With` builds a new core. */
  datatype Core = Core(logger: Logger, minLevel: Level, fields: seq<Field>, ctx: Context)

  /** `NewOTelCore`: a core with no fields and the background context, over a logger named "zap-bridge". */
  method NewOTelCore(minLevel: Level) returns (c: Core)
    ensures fresh(c.logger) && c.logger.name == "zap-bridge" && c.logger.emitted == []
    ensures c.minLevel == minLevel && c.fields == [] && c.ctx == Background
  {
    var logger := new Logger("zap-bridge");
    c := Core(logger, minLevel, [], Background);
  }

  /** `Enabled`. */
  predicate Enabled(c: Core, level: Level) {
    level >= c.minLevel
  }

  /** The enabled levels are exactly those from `minLevel` up. */
  lemma EnabledFromMinLevel(c: Core, a: Level, b: Level)
    ensures Enabled(c, c.minLevel)
    ensures Enabled(c, a) && a <= b ==> Enabled(c, b)
    ensures Enabled(c, a) <==> a >= c.minLevel
  {
  }

  /** `With`. */
  function With(c: Core, fs: seq<Field>): (r: Core)
    ensures r.logger == c.logger && r.minLevel == c.minLevel && r.ctx == c.ctx
    ensures r.fields == c.fields + fs
  {
    Core(c.logger, c.minLevel, c.fields + fs, c.ctx)
  }

  /** Adding fields in two steps is adding them at once, and does not change what is enabled. */
  lemma {:induction false} WithComposes(c: Core, a: seq<Field>, b: seq<Field>, level: Level, fmt: Formatters)
    ensures With(With(c, a), b) == With(c, a + b)
    ensures Enabled(With(c, a), level) == Enabled(c, level)
    ensures FieldsAttributes(With(c, a).fields, fmt) == FieldsAttributes(c.fields, fmt) + FieldsAttributes(a, fmt)
  {
    assert (c.fields + a) + b == c.fields + (a + b);
    FieldsAttributesAppend(c.fields, a, fmt);
  }

  /** `zapcore.CheckedEntry`: the entry and the cores that will write it. */
  datatype CheckedEntry = CheckedEntry(entry: Entry, cores: seq<Core>)

  /** `CheckedEntry.AddCore`, where `None` is the nil entry. */
  function AddCore(ce: Option<CheckedEntry>, entry: Entry, c: Core): CheckedEntry {
    match ce
    case None => CheckedEntry(entry, [c])
    case Some(e) => e.(cores := e.cores + [c])
  }

  /** `Check`. */
  function Check(c: Core, entry: Entry, ce: Option<CheckedEntry>): (r: Option<CheckedEntry>)
    ensures Enabled(c, entry.level) ==>
      r.Some? && r.value.cores == (if ce.Some? then ce.value.cores else []) + [c] &&
      r.value.entry == (if ce.Some? then ce.value.entry else entry)
    ensures !Enabled(c, entry.level) ==> r == ce
  {
    if Enabled(c, entry.level) then Some(AddCore(ce, entry, c)) else ce
  }

  /** The record `Write` emits for `entry` with call-site fields `fields`. */
  function EncodeRecord(c: Core, entry: Entry, fields: seq<Field>, fmt: Formatters): (r: Record)
    ensures r.timestamp == entry.time && r.body == StringValue(entry.message)
    ensures |r.attributes| <= |c.fields| + |fields| + 5
  {
    Record(
      timestamp := entry.time,
      severity := ToSeverity(entry.level),
      severityText := LevelText(entry.level),
      body := StringValue(entry.message),
      attributes := FieldsAttributes(c.fields + fields, fmt) + EntryAttributes(entry))
  }

  /**
   * The record's layout: the entry's time, mapped level and message; then the
   * core's field attributes, the call site's, and the entry attributes.
   */
  lemma {:induction false} RecordLayout(c: Core, entry: Entry, fields: seq<Field>, fmt: Formatters)
    ensures var r := EncodeRecord(c, entry, fields, fmt);
      && r.timestamp == entry.time
      && r.severity == ToSeverity(entry.level)
      && r.severityText == LevelText(entry.level)
      && r.body == StringValue(entry.message)
      && r.attributes == FieldsAttributes(c.fields, fmt) + FieldsAttributes(fields, fmt) + EntryAttributes(entry)
      && |r.attributes| <= |c.fields| + |fields| + 5
  {
    FieldsAttributesAppend(c.fields, fields, fmt);
  }

  /** The record's entry attributes, after the field attributes, read back to the entry's caller, logger name and stack. */
  lemma {:induction false} RecordReadsBack(c: Core, entry: Entry, fields: seq<Field>, fmt: Formatters)
    ensures var r := EncodeRecord(c, entry, fields, fmt);
      var n := |FieldsAttributes(c.fields, fmt)| + |FieldsAttributes(fields, fmt)|;
      n <= |r.attributes| && DecodeEntryAttributes(r.attributes[n..]) == Some(MetaOf(entry))
  {
    var r := EncodeRecord(c, entry, fields, fmt);
    var front := FieldsAttributes(c.fields, fmt) + FieldsAttributes(fields, fmt);
    RecordLayout(c, entry, fields, fmt);
    assert r.attributes[|front|..] == EntryAttributes(entry);
    EntryAttributesRoundTrip(entry);
  }

  /** `log.Record` as `Write` fills it in, through setters and `AddAttributes`. */
  class LogRecord {
    var timestamp: Time
    var severity: Severity
    var severityText: string
    var body: Value
    var attributes: seq<KeyValue>

    function Snapshot(): Record
      reads this
    {
      Record(timestamp, severity, severityText, body, attributes)
    }

    constructor ()
      ensures Snapshot() == Record(0, 0, "", EmptyValue, [])
    {
      timestamp, severity, severityText, body, attributes := 0, 0, "", EmptyValue, [];
    }

    method SetTimestamp(t: Time)
      modifies this
      ensures Snapshot() == old(Snapshot()).(timestamp := t)
    {
      timestamp := t;
    }

    method SetSeverity(s: Severity)
      modifies this
      ensures Snapshot() == old(Snapshot()).(severity := s)
    {
      severity := s;
    }

    method SetSeverityText(text: string)
      modifies this
      ensures Snapshot() == old(Snapshot()).(severityText := text)
    {
      severityText := text;
    }

    method SetBody(v: Value)
      modifies this
      ensures Snapshot() == old(Snapshot()).(body := v)
    {
      body := v;
    }

    method AddAttributes(kvs: seq<KeyValue>)
      modifies this
      ensures Snapshot() == old(Snapshot()).(attributes := old(attributes) + kvs)
    {
      attributes := attributes + kvs;
    }
  }

  /** `addFieldToRecord`: appends the field's attribute, if any, to the record. */
  method AddFieldToRecord(record: LogRecord, f: Field, fmt: Formatters)
    modifies record
    ensures record.Snapshot() == old(record.Snapshot()).(attributes := old(record.attributes) + FieldAttributes(f, fmt))
  {
    match f.kind
    case BoolType =>
      record.AddAttributes([KeyValue(f.key, BoolValue(f.integer == 1))]);
    case Int8Type | Int16Type | Int32Type | Int64Type | Uint8Type | Uint16Type | Uint32Type | Uint64Type =>
      record.AddAttributes([KeyValue(f.key, Int64Value(f.integer))]);
    case StringType =>
      record.AddAttributes([KeyValue(f.key, StringValue(f.str))]);
    case DurationType =>
      record.AddAttributes([KeyValue(f.key, StringValue(fmt.duration(f.integer)))]);
    case TimeType =>
      if f.iface.TimeValue? {
        record.AddAttributes([KeyValue(f.key, StringValue(fmt.rfc3339(f.iface.instant)))]);
      }
    case ErrorType =>
      if f.iface.ErrorValue? {
        record.AddAttributes([KeyValue(f.key, StringValue(f.iface.text))]);
      }
    case ReflectType | StringerType =>
      if !f.iface.Nil? {
        record.AddAttributes([KeyValue(f.key, StringValue(f.str))]);
      }
    case _ =>
      record.AddAttributes([KeyValue(f.key, StringValue(f.str))]);
  }

  /** `Write`: emits exactly one record, the encoding of the entry and both runs of fields, and never fails. */
  method Write(c: Core, entry: Entry, fields: seq<Field>, fmt: Formatters) returns (err: Option<string>)
    modifies c.logger
    ensures c.logger.emitted == old(c.logger.emitted) + [Emission(c.ctx, EncodeRecord(c, entry, fields, fmt))]
    ensures err == None
  {
    var severity := ToSeverity(entry.level);

    var record := new LogRecord();
    record.SetTimestamp(entry.time);
    record.SetSeverity(severity);
    record.SetSeverityText(LevelText(entry.level));
    record.SetBody(StringValue(entry.message));

    var allFields := c.fields + fields;
    for i := 0 to |allFields|
      modifies record
      invariant record.Snapshot() ==
        Record(entry.time, severity, LevelText(entry.level), StringValue(entry.message), FieldsAttributes(allFields[..i], fmt))
    {
      FieldsAttributesStep(allFields, i, fmt);
      AddFieldToRecord(record, allFields[i], fmt);
    }
    assert allFields[..|allFields|] == allFields;
    ghost var fieldPart := FieldsAttributes(allFields, fmt);

    if entry.caller.defined {
      record.AddAttributes([
        KeyValue("caller.file", StringValue(entry.caller.file)),
        KeyValue("caller.function", StringValue(entry.caller.func)),
        KeyValue("caller.line", Int64Value(entry.caller.line))]);
    }
    if entry.loggerName != "" {
      record.AddAttributes([KeyValue("logger.name", StringValue(entry.loggerName))]);
    }
    if entry.stack != "" {
      record.AddAttributes([KeyValue("stack", StringValue(entry.stack))]);
    }
    assert record.attributes == fieldPart + EntryAttributes(entry);

    c.logger.Emit(c.ctx, record.Snapshot());
    return None;
  }

  /** `Sync`: nothing to flush; it always succeeds. */
  function Sync(c: Core): (err: Option<string>)
    ensures err == None
  {
    None
  }

  /** A core built on the root core with `With`, checked and written: the one record carries the context fields first. */
  method WriteThroughWith(minLevel: Level, ctxFields: seq<Field>, entry: Entry, fields: seq<Field>, fmt: Formatters)
    requires entry.level >= minLevel
  {
    var root := NewOTelCore(minLevel);
    var c := With(root, ctxFields);
    var ce := Check(c, entry, None);
    assert ce == Some(CheckedEntry(entry, [c]));
    var err := Write(c, entry, fields, fmt);
    RecordLayout(c, entry, fields, fmt);
    assert root.logger.emitted == [Emission(Background, EncodeRecord(c, entry, fields, fmt))];
  }
}
