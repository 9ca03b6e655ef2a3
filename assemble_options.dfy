/**
 How the `assemble` task turns a target's options into the metadata handed to
 the Assemble engine.

 - `MergeOptions` reads one option at task level and at target level of the
   raw configuration (`assemble.options.<name>` and
   `assemble.<target>.options.<name>`), treats a missing or falsy value as an
   empty array, wraps a non-array into a one-element array, and unions the two.
 - `NormalizeOptions` maps over the options that `target.options(defaults)`
   produced: `partials` is forced into array form, and every value that is then
   an array is replaced by its merge; everything else passes through.
 - `WithLogLevel` sets `options.log.level`: the command-line `--log` value,
   else the configured level, else `'error'`.

 The two raw configuration levels are passed in as maps, in place of the
 look-ups into the task runner's global configuration.
 */
module AssembleTask {
  import opened JsValues
  import opened LodashUnion

  /** The option that is always forced into array form. */
  const PartialsKey := "partials"

  /** The option holding the logging settings, and the property set on it. */
  const LogKey := "log"
  const LevelKey := "level"

  /** The log level used when neither the command line nor the options give one. */
  const DefaultLevel := Str("error")

  /**
   What one configuration level contributes to the merge of option `name`:
   `arrayify(raw[name] || [])`.
   */
  function LevelElems(raw: map<string, Value>, name: string): (r: seq<Elem>)
    ensures name !in raw ==> r == []
    ensures name in raw && !TruthyValue(raw[name]) ==> r == []
    ensures name in raw && raw[name].List? ==> r == raw[name].elems
    ensures name in raw && raw[name].Single? && Truthy(raw[name].e) ==> r == [raw[name].e]
  {
    Arrayify(OrElse(Lookup(raw, name), List([])))
  }

  /**
   `mergeOptions(name)`: the union of the task-level and the target-level
   values of option `name`.
   */
  function MergeOptions(name: string, taskOptions: map<string, Value>, targetOptions: map<string, Value>): (r: seq<Elem>)
    ensures forall x :: x in r <==> x in LevelElems(taskOptions, name) || x in LevelElems(targetOptions, name)
    ensures Distinct(r)
  {
    Union(LevelElems(taskOptions, name), LevelElems(targetOptions, name))
  }

  /**
   Order of a merge: the task-level entries first, in the order they first
   occur there, then the entries found only at target level, in their order.
   */
  lemma MergeOptionsOrder(name: string, taskOptions: map<string, Value>, targetOptions: map<string, Value>)
    ensures var t := LevelElems(taskOptions, name);
            MergeOptions(name, taskOptions, targetOptions) == Dedup(t) + Dedup(Without(LevelElems(targetOptions, name), t))
  {
    UnionOrder(LevelElems(taskOptions, name), LevelElems(targetOptions, name));
  }

  /**
   A merge lists its entries in the order of their first occurrence in the
   task-level entries followed by the target-level entries.
   */
  lemma MergeOptionsInFirstOccurrenceOrder(name: string, taskOptions: map<string, Value>, targetOptions: map<string, Value>)
    ensures InFirstOccurrenceOrder(MergeOptions(name, taskOptions, targetOptions),
                                   LevelElems(taskOptions, name) + LevelElems(targetOptions, name))
  {
    DedupFirstOccurrenceOrder(LevelElems(taskOptions, name) + LevelElems(targetOptions, name));
  }

  /**
   The merge is the only repeat-free list of the merged entries in the order
   of their first occurrence in the task-level then target-level entries.
   */
  lemma MergeOptionsFirstOccurrence(name: string, taskOptions: map<string, Value>, targetOptions: map<string, Value>, r: seq<Elem>)
    requires forall x :: x in r <==> x in LevelElems(taskOptions, name) || x in LevelElems(targetOptions, name)
    requires Distinct(r)
    requires InFirstOccurrenceOrder(r, LevelElems(taskOptions, name) + LevelElems(targetOptions, name))
    ensures r == MergeOptions(name, taskOptions, targetOptions)
  {
    DedupCharacterized(LevelElems(taskOptions, name) + LevelElems(targetOptions, name), r);
  }

  /**
   A missing level counts as the empty list: with neither level set the merge
   is empty, and a single non-array value at one level alone gives exactly
   that one entry.
   */
  lemma MergeOptionsMissingLevels(name: string, taskOptions: map<string, Value>, targetOptions: map<string, Value>)
    ensures name !in taskOptions && name !in targetOptions ==> MergeOptions(name, taskOptions, targetOptions) == []
    ensures name !in targetOptions && name in taskOptions && taskOptions[name].Single? && Truthy(taskOptions[name].e)
            ==> MergeOptions(name, taskOptions, targetOptions) == [taskOptions[name].e]
    ensures name !in taskOptions && name in targetOptions && targetOptions[name].Single? && Truthy(targetOptions[name].e)
            ==> MergeOptions(name, taskOptions, targetOptions) == [targetOptions[name].e]
  {
    var t := LevelElems(taskOptions, name);
    var g := LevelElems(targetOptions, name);
    if name !in taskOptions && name !in targetOptions {
      assert t + g == [];
    }
    if name !in targetOptions && name in taskOptions && taskOptions[name].Single? && Truthy(taskOptions[name].e) {
      assert t + g == [taskOptions[name].e];
      DedupOfDistinct(t + g);
    }
    if name !in taskOptions && name in targetOptions && targetOptions[name].Single? && Truthy(targetOptions[name].e) {
      assert t + g == [targetOptions[name].e];
      DedupOfDistinct(t + g);
    }
  }

  /**
   With every object identity among the entries carried by one property map,
   the merge holds no two entries that SameValueZero identifies: Dafny's `==`
   on such entries is lodash's equality.
   */
  lemma MergeOptionsNoSameValueZeroRepeats(name: string, taskOptions: map<string, Value>, targetOptions: map<string, Value>)
    requires RefsConsistent(LevelElems(taskOptions, name) + LevelElems(targetOptions, name))
    ensures var r := MergeOptions(name, taskOptions, targetOptions);
            forall i, j :: 0 <= i < j < |r| ==> !SameValueZero(r[i], r[j])
  {
    var all := LevelElems(taskOptions, name) + LevelElems(targetOptions, name);
    var r := MergeOptions(name, taskOptions, targetOptions);
    forall i, j | 0 <= i < j < |r| ensures !SameValueZero(r[i], r[j]) {
      assert r[i] in all && r[j] in all;
      var a :| 0 <= a < |all| && all[a] == r[i];
      var b :| 0 <= b < |all| && all[b] == r[j];
      SameValueZeroIsEquality(all, a, b);
    }
  }

  /**
   The same repeat-free list at both levels merges to that list, once: an
   entry repeated at target level is not added a second time.
   */
  lemma MergeOptionsSameListBothLevels(name: string, taskOptions: map<string, Value>, targetOptions: map<string, Value>, xs: seq<Elem>)
    requires name in taskOptions && taskOptions[name] == List(xs)
    requires name in targetOptions && targetOptions[name] == List(xs)
    requires Distinct(xs)
    ensures MergeOptions(name, taskOptions, targetOptions) == xs
  {
    UnionOrder(xs, xs);
    DedupOfDistinct(xs);
    WithoutCovered(xs, xs);
    assert xs + [] == xs;
  }

  /**
   One option after normalisation: `partials` is arrayified first; a value
   that is (then) an array becomes the merge of that option; any other value
   is returned as it is.
   */
  function NormalizeValue(key: string, value: Value, taskOptions: map<string, Value>, targetOptions: map<string, Value>): (r: Value)
    ensures key == PartialsKey || value.List? ==> r == List(MergeOptions(key, taskOptions, targetOptions))
    ensures key != PartialsKey && value.Single? ==> r == value
  {
    var v := if key == PartialsKey then List(Arrayify(value)) else value;
    if v.List? then List(MergeOptions(key, taskOptions, targetOptions)) else v
  }

  /**
   `normalizeOptions`: the options of `target.options(defaults)`, each passed
   through `NormalizeValue`.
   */
  function NormalizeOptions(options: map<string, Value>, taskOptions: map<string, Value>, targetOptions: map<string, Value>): (r: map<string, Value>)
    ensures r.Keys == options.Keys
    ensures forall k :: k in options && k != PartialsKey && options[k].Single? ==> r[k] == options[k]
    ensures forall k :: k in options && (k == PartialsKey || options[k].List?) ==>
              r[k] == List(MergeOptions(k, taskOptions, targetOptions))
  {
    map k | k in options :: NormalizeValue(k, options[k], taskOptions, targetOptions)
  }

  /**
   After normalisation `partials` and every option that was an array are
   arrays, and every array holds exactly the entries of the raw task-level and
   target-level values, each once.
   */
  lemma NormalizedArrays(options: map<string, Value>, taskOptions: map<string, Value>, targetOptions: map<string, Value>)
    ensures var r := NormalizeOptions(options, taskOptions, targetOptions);
            && (PartialsKey in options ==> r[PartialsKey].List?)
            && (forall k :: k in options && options[k].List? ==> r[k].List?)
            && (forall k :: k in r && r[k].List? ==> Distinct(r[k].elems))
            && (forall k, x :: k in r && r[k].List? ==>
                  (x in r[k].elems <==> x in LevelElems(taskOptions, k) || x in LevelElems(targetOptions, k)))
  {
    var r := NormalizeOptions(options, taskOptions, targetOptions);
    forall k | k in r && r[k].List?
      ensures r[k] == List(MergeOptions(k, taskOptions, targetOptions))
    {
    }
  }

  /**
   An array entry that comes only from the defaults (it is in neither raw
   configuration level) does not survive normalisation.
   */
  lemma DefaultOnlyEntriesDropped(options: map<string, Value>, taskOptions: map<string, Value>, targetOptions: map<string, Value>, key: string, x: Elem)
    requires key in options && options[key].List? && x in options[key].elems
    requires x !in LevelElems(taskOptions, key) && x !in LevelElems(targetOptions, key)
    ensures key in NormalizeOptions(options, taskOptions, targetOptions)
    ensures x !in NormalizeOptions(options, taskOptions, targetOptions)[key].elems
  {
    NormalizedArrays(options, taskOptions, targetOptions);
  }

  /** Normalising options that are already normalised changes nothing. */
  lemma NormalizeOptionsIdempotent(options: map<string, Value>, taskOptions: map<string, Value>, targetOptions: map<string, Value>)
    ensures var once := NormalizeOptions(options, taskOptions, targetOptions);
            NormalizeOptions(once, taskOptions, targetOptions) == once
  {
    var once := NormalizeOptions(options, taskOptions, targetOptions);
    var twice := NormalizeOptions(once, taskOptions, targetOptions);
    forall k | k in once ensures twice[k] == once[k] {
      if k == PartialsKey || options[k].List? {
        assert once[k] == List(MergeOptions(k, taskOptions, targetOptions));
      } else {
        assert once[k] == options[k];
      }
    }
  }

  /**
   `options.log.level` as configured: the `level` property of an object, and
   `undefined` on any other value; a falsy `options.log` reads as `{}`.
   */
  function ConfiguredLevel(log: Value): (level: Elem)
    ensures !TruthyValue(log) ==> level == Undefined
    ensures log.Single? && log.e.Obj? && LevelKey in log.e.props ==> level == log.e.props[LevelKey]
    ensures TruthyValue(log) && !(log.Single? && log.e.Obj? && LevelKey in log.e.props) ==> level == Undefined
  {
    if TruthyValue(log) then Prop(log, LevelKey) else Undefined
  }

  /** `logOpts || options.log.level || 'error'`. */
  function ResolveLogLevel(cli: Elem, log: Value): (level: Elem)
    ensures Truthy(level)
    ensures Truthy(cli) ==> level == cli
    ensures !Truthy(cli) ==> level == if Truthy(ConfiguredLevel(log)) then ConfiguredLevel(log) else DefaultLevel
  {
    if Truthy(cli) then cli
    else if Truthy(ConfiguredLevel(log)) then ConfiguredLevel(log)
    else DefaultLevel
  }

  /**
   Whether assigning `options.log.level` is visible afterwards: `options.log`
   is missing or falsy (it is replaced by a fresh object) or is an object.
   Assigning a property to a string, number or boolean is silently lost.
   */
  predicate LevelAssignable(log: Value)
  {
    !TruthyValue(log) || (log.Single? && log.e.Obj?)
  }

  /**
   `options.log = options.log || {}; options.log.level = ...`. The fresh
   `{}` gets the identity `freshRef`.
   */
  function WithLogLevel(options: map<string, Value>, cli: Elem, freshRef: nat): (r: map<string, Value>)
    ensures r.Keys == options.Keys + {LogKey}
    ensures forall k :: k in options && k != LogKey ==> r[k] == options[k]
    ensures LevelAssignable(Lookup(options, LogKey)) ==>
              Prop(r[LogKey], LevelKey) == ResolveLogLevel(cli, Lookup(options, LogKey))
    ensures TruthyValue(Lookup(options, LogKey)) ==> r[LogKey].Single? == options[LogKey].Single?
    ensures TruthyValue(Lookup(options, LogKey)) && options[LogKey].Single? && options[LogKey].e.Obj? ==>
              r[LogKey].Single? && r[LogKey].e.Obj? && r[LogKey].e.ref == options[LogKey].e.ref &&
              forall p :: p in options[LogKey].e.props && p != LevelKey ==>
                p in r[LogKey].e.props && r[LogKey].e.props[p] == options[LogKey].e.props[p]
    ensures TruthyValue(Lookup(options, LogKey)) && options[LogKey].Single? && options[LogKey].e.Obj? ==>
              r[LogKey].e.props.Keys == options[LogKey].e.props.Keys + {LevelKey}
    ensures !TruthyValue(Lookup(options, LogKey)) ==>
              r[LogKey] == Single(Obj(freshRef, map[LevelKey := ResolveLogLevel(cli, Lookup(options, LogKey))]))
    ensures !LevelAssignable(Lookup(options, LogKey)) ==> r == options
  {
    var log := Lookup(options, LogKey);
    var level := ResolveLogLevel(cli, log);
    var newLog :=
      if !TruthyValue(log) then Single(Obj(freshRef, map[LevelKey := level]))
      else match log
        case Single(Obj(ref, props)) => Single(Obj(ref, props[LevelKey := level]))
        case _ => log;
    options[LogKey := newLog]
  }

  /**
   The options the task hands to the engine (before the file components are
   attached): normalised options with the log level set. Every option other
   than `log` holds its normalised value; a non-array `log` is updated as if
   normalisation had not run, and its level follows the log-level precedence.
   */
  function TaskOptions(options: map<string, Value>, taskOptions: map<string, Value>, targetOptions: map<string, Value>,
                       cli: Elem, freshRef: nat): (r: map<string, Value>)
    ensures r.Keys == options.Keys + {LogKey}
    ensures forall k :: k in options && k != LogKey ==> r[k] == NormalizeOptions(options, taskOptions, targetOptions)[k]
    ensures LogKey !in options || options[LogKey].Single? ==>
              r[LogKey] == WithLogLevel(options, cli, freshRef)[LogKey]
    ensures (LogKey !in options || options[LogKey].Single?) && LevelAssignable(Lookup(options, LogKey)) ==>
              Prop(r[LogKey], LevelKey) == ResolveLogLevel(cli, Lookup(options, LogKey))
  {
    assert LogKey !in options || options[LogKey].Single? ==>
      Lookup(NormalizeOptions(options, taskOptions, targetOptions), LogKey) == Lookup(options, LogKey);
    WithLogLevel(NormalizeOptions(options, taskOptions, targetOptions), cli, freshRef)
  }

  /**
   Log-level precedence on the task's options: the command-line value when
   it is set, otherwise the configured `options.log.level` when it is set,
   otherwise `'error'`.
   */
  lemma TaskLogLevelPrecedence(options: map<string, Value>, taskOptions: map<string, Value>, targetOptions: map<string, Value>,
                               cli: Elem, freshRef: nat)
    requires LogKey !in options || options[LogKey].Single?
    requires LevelAssignable(Lookup(options, LogKey))
    ensures var level := Prop(TaskOptions(options, taskOptions, targetOptions, cli, freshRef)[LogKey], LevelKey);
            && (Truthy(cli) ==> level == cli)
            && (!Truthy(cli) && Truthy(ConfiguredLevel(Lookup(options, LogKey))) ==> level == ConfiguredLevel(Lookup(options, LogKey)))
            && (!Truthy(cli) && !Truthy(ConfiguredLevel(Lookup(options, LogKey))) ==> level == DefaultLevel)
  {
    var normalized := NormalizeOptions(options, taskOptions, targetOptions);
    assert Lookup(normalized, LogKey) == Lookup(options, LogKey);
  }

  /**
   A log setting given as a plain string (`log: 'debug'`) loses the level:
   the string is kept and `options.log.level` reads `undefined`.
   */
  lemma StringLogLosesLevel(cli: Elem, freshRef: nat)
    ensures var options := map[LogKey := Single(Str("debug"))];
            var r := WithLogLevel(options, cli, freshRef);
            r[LogKey] == Single(Str("debug")) && Prop(r[LogKey], LevelKey) == Undefined
  {
  }
}
