/**
 * The structured log formatter and filter of
 * data_virtualisation/logging_config/data_connection_logger.py.
 *
 * A log record is its attribute dictionary (`record.__dict__`). What the
 * formatter obtains from its environment (the rendered message, the ISO-8601
 * timestamp, the login name, the formatted traceback and stack) is passed in
 * as an `Env`. The formatted dictionary is a map from field name to value;
 * its JSON rendering is not modelled.
 */
module DataConnectionLogging {
  import opened Wrappers
  import opened Logging

  /** A Python value held by a record attribute. `Object` is any other object, with what `bool()` gives for it. */
  datatype Value = NoneValue | Int(i: int) | Text(s: string) | Object(id: nat, truthy: bool)

  /** Python truthiness. */
  predicate Truthy(v: Value)
  {
    match v
    case NoneValue => false
    case Int(i) => i != 0
    case Text(s) => s != ""
    case Object(_, b) => b
  }

  /** `record.__dict__`. */
  type Record = map<string, Value>

  /** The items of `fmt_keys` in dictionary order: (output field, source field). */
  type FmtKeys = seq<(string, string)>

  /**
   * What `_prepare_log_dict` takes from outside the record: `record.getMessage()`,
   * the UTC ISO-8601 rendering of `record.created`, `os.getlogin()`,
   * `formatException(record.exc_info)` and `formatStack(record.stack_info)`.
   */
  datatype Env = Env(message: string, timestamp: string, user: string,
                     formattedException: string, formattedStack: string)

  /** Reading an attribute the record does not have (`AttributeError`). */
  datatype FormatError = AttributeError(name: string)

  /** The attributes every `logging.LogRecord` carries; only the others are copied as extras. */
  const BuiltinAttrs: set<string> := {
    "args", "asctime", "created", "exc_info", "exc_text", "filename", "funcName",
    "levelname", "levelno", "lineno", "module", "msecs", "message", "msg", "name",
    "pathname", "process", "processName", "relativeCreated", "stack_info", "thread",
    "threadName", "taskName"
  }

  /** The fields the always-include map can hold. */
  const AlwaysKeys: set<string> := {"message", "timestamp", "user", "exc_info", "stack_info"}

  /** `NoErrorFilter.filter`: admits a record when its level is at most INFO. */
  predicate NoErrorFilter(levelno: int)
  {
    levelno <= INFO
  }

  /** INFO and DEBUG pass; WARNING, ERROR and CRITICAL are held back; the filter is a threshold. */
  lemma NoErrorFilterLevels(levelno: int, lower: int)
    ensures NoErrorFilter(levelno) <==> levelno <= INFO
    ensures NoErrorFilter(levelno) && lower <= levelno ==> NoErrorFilter(lower)
    ensures NoErrorFilter(DEBUG) && NoErrorFilter(INFO)
    ensures !NoErrorFilter(WARNING) && !NoErrorFilter(ERROR) && !NoErrorFilter(CRITICAL)
  {
  }

  /**
   * The always-include map: message, timestamp and user, plus the formatted
   * exception and stack when the record has them. Reading `exc_info` or
   * `stack_info` from a record that lacks the attribute fails.
   */
  function AlwaysInclude(env: Env, record: Record): (r: Result<map<string, Value>, FormatError>)
    ensures r.Failure? <==> "exc_info" !in record || "stack_info" !in record
    ensures r.Failure? ==> r.error == AttributeError(if "exc_info" !in record then "exc_info" else "stack_info")
    ensures r.Success? ==> {"message", "timestamp", "user"} <= r.value.Keys <= AlwaysKeys
    ensures r.Success? ==> r.value["message"] == Text(env.message) && r.value["timestamp"] == Text(env.timestamp)
                           && r.value["user"] == Text(env.user)
    ensures r.Success? ==> ("exc_info" in r.value <==> record["exc_info"] != NoneValue)
    ensures r.Success? ==> ("stack_info" in r.value <==> record["stack_info"] != NoneValue)
    ensures r.Success? && "exc_info" in r.value ==> r.value["exc_info"] == Text(env.formattedException)
    ensures r.Success? && "stack_info" in r.value ==> r.value["stack_info"] == Text(env.formattedStack)
  {
    if "exc_info" !in record then Failure(AttributeError("exc_info"))
    else if "stack_info" !in record then Failure(AttributeError("stack_info"))
    else
      var base := map["message" := Text(env.message), "timestamp" := Text(env.timestamp), "user" := Text(env.user)];
      var withExc := if record["exc_info"] != NoneValue then base["exc_info" := Text(env.formattedException)] else base;
      Success(if record["stack_info"] != NoneValue then withExc["stack_info" := Text(env.formattedStack)] else withExc)
  }

  // ---------------------------------------------------------------------
  // The reference definition of the formatted dictionary.

  /** The source fields named by the first n renames. */
  function SourcesBefore(fmtKeys: FmtKeys, n: nat): set<string>
    requires n <= |fmtKeys|
  {
    set j | 0 <= j < n :: fmtKeys[j].1
  }

  /** The output fields named by the first n renames. */
  function OutKeysBefore(fmtKeys: FmtKeys, n: nat): set<string>
    requires n <= |fmtKeys|
  {
    set j | 0 <= j < n :: fmtKeys[j].0
  }

  /** No earlier rename names the same source field, so this one's pop finds it. */
  predicate FirstToName(fmtKeys: FmtKeys, i: nat)
    requires i < |fmtKeys|
  {
    forall j :: 0 <= j < i ==> fmtKeys[j].1 != fmtKeys[i].1
  }

  /** No later rename writes the same output field, so this one's value is the one kept. */
  predicate LastToWrite(fmtKeys: FmtKeys, i: nat)
    requires i < |fmtKeys|
  {
    forall j :: i < j < |fmtKeys| ==> fmtKeys[j].0 != fmtKeys[i].0
  }

  /** Rename i takes its value from the always-include map: still there when popped, and truthy. */
  predicate UsesAlways(fmtKeys: FmtKeys, always: map<string, Value>, i: nat)
    requires i < |fmtKeys|
  {
    fmtKeys[i].1 in always && FirstToName(fmtKeys, i) && Truthy(always[fmtKeys[i].1])
  }

  /** Rename i falls back to a record attribute that does not exist. */
  predicate RenameFails(fmtKeys: FmtKeys, always: map<string, Value>, record: Record, i: nat)
    requires i < |fmtKeys|
  {
    !UsesAlways(fmtKeys, always, i) && fmtKeys[i].1 !in record
  }

  predicate NoRenameFails(fmtKeys: FmtKeys, always: map<string, Value>, record: Record)
  {
    forall i :: 0 <= i < |fmtKeys| ==> !RenameFails(fmtKeys, always, record, i)
  }

  /** The value rename i produces. */
  function RenameValue(fmtKeys: FmtKeys, always: map<string, Value>, record: Record, i: nat): Value
    requires i < |fmtKeys| && !RenameFails(fmtKeys, always, record, i)
  {
    if UsesAlways(fmtKeys, always, i) then always[fmtKeys[i].1] else record[fmtKeys[i].1]
  }

  /** The index of the last rename writing output field k. */
  function LastWithKey(fmtKeys: FmtKeys, k: string): (i: nat)
    requires k in OutKeysBefore(fmtKeys, |fmtKeys|)
    ensures i < |fmtKeys| && fmtKeys[i].0 == k && LastToWrite(fmtKeys, i)
    decreases |fmtKeys|
  {
    var n := |fmtKeys| - 1;
    if fmtKeys[n].0 == k then n
    else
      assert k in OutKeysBefore(fmtKeys[..n], n) by {
        var j :| 0 <= j < |fmtKeys| && fmtKeys[j].0 == k;
        assert fmtKeys[..n][j].0 == k;
      }
      LastWithKey(fmtKeys[..n], k)
  }

  /** The index of the first rename from `from` on that fails. */
  function FirstFailure(fmtKeys: FmtKeys, always: map<string, Value>, record: Record, from: nat): (i: nat)
    requires from <= |fmtKeys|
    requires exists j :: from <= j < |fmtKeys| && RenameFails(fmtKeys, always, record, j)
    ensures from <= i < |fmtKeys| && RenameFails(fmtKeys, always, record, i)
    ensures forall j :: from <= j < i ==> !RenameFails(fmtKeys, always, record, j)
    decreases |fmtKeys| - from
  {
    if RenameFails(fmtKeys, always, record, from) then from
    else FirstFailure(fmtKeys, always, record, from + 1)
  }

  /** What the rename comprehension builds: each output field with the value of its last rename. */
  function Renamed(fmtKeys: FmtKeys, always: map<string, Value>, record: Record): map<string, Value>
    requires NoRenameFails(fmtKeys, always, record)
  {
    map k | k in OutKeysBefore(fmtKeys, |fmtKeys|) :: RenameValue(fmtKeys, always, record, LastWithKey(fmtKeys, k))
  }

  /** The record attributes that are not built in. */
  function Extras(record: Record): map<string, Value>
  {
    map k | k in record && k !in BuiltinAttrs :: record[k]
  }

  /**
   * The dictionary `_prepare_log_dict` returns: the renames, overridden by the
   * always-include fields no rename consumed, overridden by the extras; or the
   * error of the first rename whose record attribute is missing.
   */
  function LogDict(fmtKeys: FmtKeys, env: Env, record: Record): Result<map<string, Value>, FormatError>
  {
    match AlwaysInclude(env, record)
    case Failure(e) => Failure(e)
    case Success(always) =>
      if NoRenameFails(fmtKeys, always, record) then
        Success(Renamed(fmtKeys, always, record) + (always - SourcesBefore(fmtKeys, |fmtKeys|)) + Extras(record))
      else
        Failure(AttributeError(fmtKeys[FirstFailure(fmtKeys, always, record, 0)].1))
  }

  // ---------------------------------------------------------------------
  // The formatter.

  /** `DataConnectionLogger`, a `logging.Formatter` with field renames. */
  class DataConnectionLogger {
    const fmtKeys: FmtKeys

    /** `fmt_keys` defaults to the empty dictionary. */
    constructor (fmtKeys: Option<FmtKeys>)
      ensures fmtKeys.None? ==> this.fmtKeys == []
      ensures fmtKeys.Some? ==> this.fmtKeys == fmtKeys.value
    {
      this.fmtKeys := if fmtKeys.Some? then fmtKeys.value else [];
    }

    /** `_prepare_log_dict(record)`. */
    method PrepareLogDict(env: Env, record: Record) returns (r: Result<map<string, Value>, FormatError>)
      ensures r == LogDict(fmtKeys, env, record)
    {
      var always := AlwaysInclude(env, record);
      if always.Failure? {
        return Failure(always.error);
      }
      var renamed := ApplyRenames(fmtKeys, always.value, record);
      if renamed.Failure? {
        return Failure(renamed.error);
      }
      var (message, remaining) := renamed.value;
      // message.update(always_include)
      message := message + remaining;
      message := CopyExtras(message, record);
      r := Success(message);
    }
  }

  /**
   * The comprehension over `fmt_keys`: each rename pops its source field from
   * the always-include map and writes its output field. Returns the renamed
   * fields and what is left of the always-include map.
   */
  method ApplyRenames(fmtKeys: FmtKeys, always0: map<string, Value>, record: Record)
    returns (r: Result<(map<string, Value>, map<string, Value>), FormatError>)
    ensures r.Success? <==> NoRenameFails(fmtKeys, always0, record)
    ensures r.Success? ==> r.value == (Renamed(fmtKeys, always0, record), always0 - SourcesBefore(fmtKeys, |fmtKeys|))
    ensures r.Failure? ==> r.error == AttributeError(fmtKeys[FirstFailure(fmtKeys, always0, record, 0)].1)
  {
    var always := always0;
    var message: map<string, Value> := map[];
    var i := 0;
    assert SourcesBefore(fmtKeys, 0) == {};
    while i < |fmtKeys|
      invariant 0 <= i <= |fmtKeys|
      invariant always == always0 - SourcesBefore(fmtKeys, i)
      invariant forall j :: 0 <= j < i ==> !RenameFails(fmtKeys, always0, record, j)
      invariant RenamedSoFar(fmtKeys, always0, record, message, i)
    {
      var (key, src) := fmtKeys[i];
      PrefixStep(fmtKeys, i);
      var msgVal := if src in always then Some(always[src]) else None;
      RemoveTwice(always0, SourcesBefore(fmtKeys, i), src);
      always := always - {src};
      if msgVal.Some? && Truthy(msgVal.value) {
        assert UsesAlways(fmtKeys, always0, i);
        RenameStep(fmtKeys, always0, record, message, i);
        message := message[key := msgVal.value];
      } else if src in record {
        assert !UsesAlways(fmtKeys, always0, i);
        RenameStep(fmtKeys, always0, record, message, i);
        message := message[key := record[src]];
      } else {
        assert RenameFails(fmtKeys, always0, record, i);
        ghost var k := FirstFailure(fmtKeys, always0, record, 0);
        assert k == i;
        return Failure(AttributeError(src));
      }
      i := i + 1;
    }
    RenamedComplete(fmtKeys, always0, record, message);
    r := Success((message, always));
  }

  /**
   * After the first n renames, the fields written are exactly their output
   * fields, each holding the value of the last of them to write it.
   */
  ghost predicate RenamedSoFar(fmtKeys: FmtKeys, always0: map<string, Value>, record: Record,
                               message: map<string, Value>, n: nat)
  {
    && n <= |fmtKeys|
    && (forall j :: 0 <= j < n ==> !RenameFails(fmtKeys, always0, record, j))
    && message.Keys == OutKeysBefore(fmtKeys, n)
    && HoldsLastValues(fmtKeys, always0, record, message, n)
  }

  /** Each output field written by the first n renames holds the value of the last of them to write it. */
  ghost predicate HoldsLastValues(fmtKeys: FmtKeys, always0: map<string, Value>, record: Record,
                                  message: map<string, Value>, n: nat)
    requires n <= |fmtKeys| && forall j :: 0 <= j < n ==> !RenameFails(fmtKeys, always0, record, j)
  {
    forall j :: 0 <= j < n && LastBefore(fmtKeys, j, n) ==>
      fmtKeys[j].0 in message && message[fmtKeys[j].0] == RenameValue(fmtKeys, always0, record, j)
  }

  /** No rename between j and n writes the output field of rename j. */
  predicate LastBefore(fmtKeys: FmtKeys, j: nat, n: nat)
    requires j < n <= |fmtKeys|
  {
    forall m :: j < m < n ==> fmtKeys[m].0 != fmtKeys[j].0
  }

  /** Removing a set of keys and then one more is removing their union. */
  lemma RemoveTwice(m: map<string, Value>, keys: set<string>, k: string)
    ensures (m - keys) - {k} == m - (keys + {k})
  {
  }

  /** One more rename: the sources and output fields named so far grow by its own. */
  lemma PrefixStep(fmtKeys: FmtKeys, i: nat)
    requires i < |fmtKeys|
    ensures SourcesBefore(fmtKeys, i + 1) == SourcesBefore(fmtKeys, i) + {fmtKeys[i].1}
    ensures OutKeysBefore(fmtKeys, i + 1) == OutKeysBefore(fmtKeys, i) + {fmtKeys[i].0}
    ensures fmtKeys[i].1 in SourcesBefore(fmtKeys, i) <==> !FirstToName(fmtKeys, i)
  {
  }

  /** Writing rename i's value extends RenamedSoFar by one rename. */
  lemma RenameStep(fmtKeys: FmtKeys, always0: map<string, Value>, record: Record, message: map<string, Value>, i: nat)
    requires i < |fmtKeys| && !RenameFails(fmtKeys, always0, record, i)
    requires RenamedSoFar(fmtKeys, always0, record, message, i)
    ensures RenamedSoFar(fmtKeys, always0, record, message[fmtKeys[i].0 := RenameValue(fmtKeys, always0, record, i)], i + 1)
  {
    PrefixStep(fmtKeys, i);
    HoldsLastValuesStep(fmtKeys, always0, record, message, i);
  }

  /** Writing rename i's value keeps HoldsLastValues for one more rename. */
  lemma HoldsLastValuesStep(fmtKeys: FmtKeys, always0: map<string, Value>, record: Record,
                            message: map<string, Value>, i: nat)
    requires i < |fmtKeys| && forall j :: 0 <= j <= i ==> !RenameFails(fmtKeys, always0, record, j)
    requires HoldsLastValues(fmtKeys, always0, record, message, i)
    ensures HoldsLastValues(fmtKeys, always0, record, message[fmtKeys[i].0 := RenameValue(fmtKeys, always0, record, i)], i + 1)
  {
    var message' := message[fmtKeys[i].0 := RenameValue(fmtKeys, always0, record, i)];
    forall j | 0 <= j < i + 1 && LastBefore(fmtKeys, j, i + 1)
      ensures fmtKeys[j].0 in message' && message'[fmtKeys[j].0] == RenameValue(fmtKeys, always0, record, j)
    {
      if j < i {
        assert LastBefore(fmtKeys, j, i);
        assert fmtKeys[i].0 != fmtKeys[j].0;
      }
    }
  }

  /** Once every rename is applied, RenamedSoFar is the reference map Renamed. */
  lemma RenamedComplete(fmtKeys: FmtKeys, always0: map<string, Value>, record: Record, message: map<string, Value>)
    requires RenamedSoFar(fmtKeys, always0, record, message, |fmtKeys|)
    ensures NoRenameFails(fmtKeys, always0, record)
    ensures message == Renamed(fmtKeys, always0, record)
  {
  }

  /** The loop over `record.__dict__`: every attribute that is not built in is written, overriding what is there. */
  method CopyExtras(merged: map<string, Value>, record: Record) returns (message: map<string, Value>)
    ensures message == merged + Extras(record)
  {
    message := merged;
    var rest := record.Keys;
    ghost var done: set<string> := {};
    while rest != {}
      invariant rest <= record.Keys && done == record.Keys - rest
      invariant message == merged + ExtrasWithin(record, done)
      decreases rest
    {
      var key :| key in rest;
      ExtrasStep(merged, record, done, key);
      if key !in BuiltinAttrs {
        message := message[key := record[key]];
      }
      rest := rest - {key};
      done := done + {key};
    }
    assert done == record.Keys;
  }

  /** The extras among the attributes in `keys`. */
  function ExtrasWithin(record: Record, keys: set<string>): map<string, Value>
  {
    map k | k in keys && k in record && k !in BuiltinAttrs :: record[k]
  }

  /** Visiting one more attribute writes it when it is not built in, and does nothing otherwise. */
  lemma ExtrasStep(merged: map<string, Value>, record: Record, done: set<string>, key: string)
    requires key in record
    ensures key !in BuiltinAttrs ==>
              (merged + ExtrasWithin(record, done))[key := record[key]] == merged + ExtrasWithin(record, done + {key})
    ensures key in BuiltinAttrs ==> ExtrasWithin(record, done + {key}) == ExtrasWithin(record, done)
  {
  }

  // ---------------------------------------------------------------------
  // Properties of the formatted dictionary.

  /** Formatting fails exactly when the always-include map cannot be built or some rename's attribute is missing. */
  lemma LogDictFailsIff(fmtKeys: FmtKeys, env: Env, record: Record)
    requires AlwaysInclude(env, record).Success?
    ensures var always := AlwaysInclude(env, record).value;
            LogDict(fmtKeys, env, record).Failure? <==>
              exists i :: 0 <= i < |fmtKeys| && !UsesAlways(fmtKeys, always, i) && fmtKeys[i].1 !in record
  {
    var always := AlwaysInclude(env, record).value;
    if LogDict(fmtKeys, env, record).Failure? {
      assert !NoRenameFails(fmtKeys, always, record);
      var i := FirstFailure(fmtKeys, always, record, 0);
      assert RenameFails(fmtKeys, always, record, i);
    } else {
      forall i | 0 <= i < |fmtKeys|
        ensures UsesAlways(fmtKeys, always, i) || fmtKeys[i].1 in record
      {
        assert !RenameFails(fmtKeys, always, record, i);
      }
    }
  }

  /** The fields of the formatted dictionary: rename outputs, unconsumed always-include fields, extras. */
  lemma LogDictKeys(fmtKeys: FmtKeys, env: Env, record: Record)
    requires LogDict(fmtKeys, env, record).Success?
    ensures var always := AlwaysInclude(env, record).value;
            LogDict(fmtKeys, env, record).value.Keys ==
              OutKeysBefore(fmtKeys, |fmtKeys|) + (always.Keys - SourcesBefore(fmtKeys, |fmtKeys|))
              + (record.Keys - BuiltinAttrs)
  {
  }

  /** Every attribute that is not built in appears verbatim: extras are written last and win. */
  lemma ExtrasAppearVerbatim(fmtKeys: FmtKeys, env: Env, record: Record, k: string)
    requires LogDict(fmtKeys, env, record).Success?
    requires k in record && k !in BuiltinAttrs
    ensures k in LogDict(fmtKeys, env, record).value && LogDict(fmtKeys, env, record).value[k] == record[k]
  {
  }

  /** An always-include field that no rename consumed keeps its name and overrides a rename writing that name. */
  lemma UnconsumedFieldsAppear(fmtKeys: FmtKeys, env: Env, record: Record, k: string)
    requires LogDict(fmtKeys, env, record).Success?
    requires k in AlwaysInclude(env, record).value
    requires forall i :: 0 <= i < |fmtKeys| ==> fmtKeys[i].1 != k
    requires k !in Extras(record)
    ensures k in LogDict(fmtKeys, env, record).value
    ensures LogDict(fmtKeys, env, record).value[k] == AlwaysInclude(env, record).value[k]
  {
  }

  /** A field consumed by a rename does not reappear under its own name, unless a rename or an extra writes that name. */
  lemma ConsumedFieldsDoNotReappear(fmtKeys: FmtKeys, env: Env, record: Record, i: nat)
    requires LogDict(fmtKeys, env, record).Success?
    requires i < |fmtKeys|
    requires forall j :: 0 <= j < |fmtKeys| ==> fmtKeys[j].0 != fmtKeys[i].1
    requires fmtKeys[i].1 !in Extras(record)
    ensures fmtKeys[i].1 !in LogDict(fmtKeys, env, record).value
  {
  }

  /**
   * The value under a rename's output field, when nothing later overrides it:
   * the always-include value it names if that is still unconsumed and truthy,
   * otherwise the record attribute it names.
   */
  lemma RenameOutput(fmtKeys: FmtKeys, env: Env, record: Record, i: nat)
    requires LogDict(fmtKeys, env, record).Success?
    requires i < |fmtKeys| && LastToWrite(fmtKeys, i)
    requires var key := fmtKeys[i].0;
             key !in Extras(record) && (key !in AlwaysInclude(env, record).value || key in SourcesBefore(fmtKeys, |fmtKeys|))
    ensures var always := AlwaysInclude(env, record).value;
            var out := LogDict(fmtKeys, env, record).value;
            var (key, src) := fmtKeys[i];
            key in out &&
            (if src in always && FirstToName(fmtKeys, i) && Truthy(always[src]) then out[key] == always[src]
             else src in record && out[key] == record[src])
  {
    var always := AlwaysInclude(env, record).value;
    var key := fmtKeys[i].0;
    assert key in OutKeysBefore(fmtKeys, |fmtKeys|);
    var j := LastWithKey(fmtKeys, key);
    assert j == i;
    assert !RenameFails(fmtKeys, always, record, i);
  }

  /** A built-in attribute that is not an always-include field appears only as the output field of a rename. */
  lemma BuiltinsOnlyThroughRenames(fmtKeys: FmtKeys, env: Env, record: Record, k: string)
    requires LogDict(fmtKeys, env, record).Success?
    requires k in BuiltinAttrs && k !in AlwaysKeys
    requires k in LogDict(fmtKeys, env, record).value
    ensures exists i :: 0 <= i < |fmtKeys| && fmtKeys[i].0 == k
  {
  }

  /**
   * With the rename {"lvl": "levelname"}, the output holds `lvl` equal to the
   * record's level name and no `levelname` field.
   */
  lemma LevelNameRename(env: Env, record: Record)
    requires "exc_info" in record && "stack_info" in record && "levelname" in record
    requires "lvl" !in record
    ensures LogDict([("lvl", "levelname")], env, record).Success?
    ensures var out := LogDict([("lvl", "levelname")], env, record).value;
            "lvl" in out && out["lvl"] == record["levelname"] && "levelname" !in out
  {
    var fmtKeys := [("lvl", "levelname")];
    var always := AlwaysInclude(env, record).value;
    assert !UsesAlways(fmtKeys, always, 0);
    assert NoRenameFails(fmtKeys, always, record);
    assert OutKeysBefore(fmtKeys, 1) == {"lvl"};
    RenameOutput(fmtKeys, env, record, 0);
  }

  /** Without renames or exception info, the message, timestamp, user and extras appear as given. */
  lemma PlainRecord(env: Env, record: Record)
    requires "exc_info" in record && record["exc_info"] == NoneValue
    requires "stack_info" in record && record["stack_info"] == NoneValue
    ensures LogDict([], env, record).Success?
    ensures var out := LogDict([], env, record).value;
            (forall k :: k in record && k !in BuiltinAttrs ==> k in out && out[k] == record[k])
            && out["message"] == Text(env.message)
            && ("timestamp" !in record ==> out["timestamp"] == Text(env.timestamp))
            && ("user" !in record ==> out["user"] == Text(env.user))
            && "exc_info" !in out && "stack_info" !in out
  {
  }

  /**
   * An empty message is falsy: a rename of `message` pops it and then reads
   * the record attribute `message`, which fails when the record lacks it.
   */
  lemma EmptyMessageFallsBackToRecord(env: Env, record: Record)
    requires "exc_info" in record && "stack_info" in record
    requires env.message == ""
    ensures "message" !in record ==>
              LogDict([("msg", "message")], env, record) == Failure(AttributeError("message"))
    ensures "message" in record && "msg" !in record ==>
              LogDict([("msg", "message")], env, record).Success? &&
              "msg" in LogDict([("msg", "message")], env, record).value &&
              LogDict([("msg", "message")], env, record).value["msg"] == record["message"]
  {
    var fmtKeys := [("msg", "message")];
    var always := AlwaysInclude(env, record).value;
    assert !UsesAlways(fmtKeys, always, 0);
    if "message" !in record {
      assert RenameFails(fmtKeys, always, record, 0);
    } else {
      assert NoRenameFails(fmtKeys, always, record);
      assert "msg" !in always;
      RenameOutput(fmtKeys, env, record, 0);
    }
  }
}
