/** The rule engine: conditions over a context map, rules as conjunctions of
    conditions, first-match-wins evaluation in descending priority order, and
    the stored dictionary form of rules. */
module Rules {
  import opened Values
  import opened Constants
  import opened Parsing

  /** The context the coordinator builds for one decision. */
  type Context = map<string, Value>

  datatype Condition = Condition(kind: ConditionKind, value: Value, value2: Value)

  datatype Action = Action(kind: ActionKind, value: Value)

  datatype Rule = Rule(
    name: string,
    conditions: seq<Condition>,
    actions: seq<Action>,
    enabled: bool,
    priority: int,       // higher is more important
    description: string)

  // ---------------------------------------------------------------- conditions

  /** `abs(v)` on the numbers `grid_export_above` applies it to. */
  function AbsValue(v: Value): (a: Value)
    ensures v.Int? && v.i < 0 ==> a == Int(-v.i)
    ensures v.Float? && v.x < 0.0 ==> a == Float(-v.x)
  {
    match v
    case Int(i) => Int(if i < 0 then -i else i)
    case Float(x) => Float(if x < 0.0 then -x else x)
    case Bool(b) => Int(if b then 1 else 0)
    case _ => v
  }

  /** Parse the start, then the end, then test the clock against the window. */
  function InWindow(clock: TimeOfDay, start: Result<TimeOfDay, PyError>, end: Result<TimeOfDay, PyError>): Result<bool, PyError> {
    if start.Failure? then Failure(start.error)
    else if end.Failure? then Failure(end.error)
    else Success(TimeInRange(clock, start.value, end.value))
  }

  /** `_parse_time(context.get(key, default_text))` where the default text
      parses to `default` (`OffpeakBoundsParseDefaults` shows the off-peak ones). */
  function ContextTime(ctx: Context, key: string, default: TimeOfDay): Result<TimeOfDay, PyError> {
    if key in ctx then ParseTime(ctx[key]) else Success(default)
  }

  /** The body of `RuleCondition.evaluate` before its exception handler: each
      kind reads its context key with that key's default and compares it with
      the condition's value; the two window kinds parse their times. */
  function EvalCondition(c: Condition, ctx: Context, clock: TimeOfDay): (r: Result<bool, PyError>)
    ensures r.Failure? && c.kind != TimeBetween && c.kind != OffpeakHours ==> r.error == TypeError
    ensures r.Failure? ==>
      r.error == TypeError || r.error == ValueError || r.error == IndexError || r.error == AttributeError || r.error == OverflowError
  {
    match c.kind
    case BatterySocAbove => Ge(Get(ctx, "battery_soc", Int(0)), c.value)
    case BatterySocBelow => Le(Get(ctx, "battery_soc", Int(100)), c.value)
    case SolarPowerAbove => Ge(Get(ctx, "solar_power", Int(0)), c.value)
    case SolarPowerBelow => Le(Get(ctx, "solar_power", PosInf), c.value)
    case GridExportAbove =>
      var grid := Get(ctx, "grid_power", Int(0));
      var exporting := Lt(grid, Int(0));
      if exporting.Failure? then Failure(exporting.error)
      else if !exporting.value then Success(false)
      else Ge(AbsValue(grid), c.value)
    case GridImportAbove =>
      var grid := Get(ctx, "grid_power", Int(0));
      var importing := Gt(grid, Int(0));
      if importing.Failure? then Failure(importing.error)
      else if !importing.value then Success(false)
      else Ge(grid, c.value)
    case TankTempAbove => Ge(Get(ctx, "tank_temp", Int(0)), c.value)
    case TankTempBelow => Le(Get(ctx, "tank_temp", Int(100)), c.value)
    case TimeBetween => InWindow(clock, ParseTime(c.value), ParseTime(c.value2))
    case DailyHeatingBelow => Lt(Get(ctx, "daily_heating_minutes", Int(0)), c.value)
    case DailyHeatingAbove => Ge(Get(ctx, "daily_heating_minutes", Int(0)), c.value)
    case OffpeakHours =>
      InWindow(clock, ContextTime(ctx, "offpeak_start", ClockTime(22, 0)), ContextTime(ctx, "offpeak_end", ClockTime(6, 0)))
  }

  /** `RuleCondition.evaluate`: a ValueError or TypeError becomes `false`; an
      IndexError, AttributeError or OverflowError from a time window escapes. */
  function ConditionHolds(c: Condition, ctx: Context, clock: TimeOfDay): (r: Result<bool, PyError>)
    ensures r.Failure? ==>
      && (r.error == IndexError || r.error == AttributeError || r.error == OverflowError)
      && (c.kind == TimeBetween || c.kind == OffpeakHours)
    ensures r.Success? ==> (r.value <==> EvalCondition(c, ctx, clock) == Success(true))
    ensures r.Failure? ==> EvalCondition(c, ctx, clock) == r
  {
    var raw := EvalCondition(c, ctx, clock);
    if raw.Failure? && (raw.error == ValueError || raw.error == TypeError) then Success(false) else raw
  }

  /** A number stored under `key`, or the key's default. */
  predicate ReadsAs(ctx: Context, key: string, default: real, x: real) {
    if key in ctx then AsNumber(ctx[key]) == Some(Finite(x)) else x == default
  }

  /** The battery and solar thresholds compare with `>=` and `<=`; a missing
      battery reading is 0 for the lower bound and 100 for the upper one, a
      missing solar reading 0 for the lower bound. */
  lemma BatteryAndSolarThresholds(ctx: Context, clock: TimeOfDay, v: Value, y: real, x: real)
    requires AsNumber(v) == Some(Finite(y))
    ensures ReadsAs(ctx, "battery_soc", 0.0, x) ==> ConditionHolds(Condition(BatterySocAbove, v, Null), ctx, clock) == Success(x >= y)
    ensures ReadsAs(ctx, "battery_soc", 100.0, x) ==> ConditionHolds(Condition(BatterySocBelow, v, Null), ctx, clock) == Success(x <= y)
    ensures ReadsAs(ctx, "solar_power", 0.0, x) ==> ConditionHolds(Condition(SolarPowerAbove, v, Null), ctx, clock) == Success(x >= y)
    ensures "solar_power" in ctx && AsNumber(ctx["solar_power"]) == Some(Finite(x)) ==>
      ConditionHolds(Condition(SolarPowerBelow, v, Null), ctx, clock) == Success(x <= y)
  {
  }

  /** The tank thresholds compare with `>=` and `<=`; a missing tank reading
      is 0 for the lower bound and 100 for the upper one. */
  lemma TankTempThresholds(ctx: Context, clock: TimeOfDay, v: Value, y: real, x: real)
    requires AsNumber(v) == Some(Finite(y))
    ensures ReadsAs(ctx, "tank_temp", 0.0, x) ==> ConditionHolds(Condition(TankTempAbove, v, Null), ctx, clock) == Success(x >= y)
    ensures ReadsAs(ctx, "tank_temp", 100.0, x) ==> ConditionHolds(Condition(TankTempBelow, v, Null), ctx, clock) == Success(x <= y)
  {
  }

  /** The daily heating thresholds compare with `<` and `>=`; a missing daily total is 0. */
  lemma DailyHeatingThresholds(ctx: Context, clock: TimeOfDay, v: Value, y: real, x: real)
    requires AsNumber(v) == Some(Finite(y))
    ensures ReadsAs(ctx, "daily_heating_minutes", 0.0, x) ==> ConditionHolds(Condition(DailyHeatingBelow, v, Null), ctx, clock) == Success(x < y)
    ensures ReadsAs(ctx, "daily_heating_minutes", 0.0, x) ==> ConditionHolds(Condition(DailyHeatingAbove, v, Null), ctx, clock) == Success(x >= y)
  {
  }

  /** Without a solar reading the power is +inf, so `solar_power_below` never holds. */
  lemma MissingSolarIsNeverBelow(ctx: Context, clock: TimeOfDay, v: Value)
    requires "solar_power" !in ctx && AsNumber(v).Some? && AsNumber(v) != Some(Infinity)
    ensures ConditionHolds(Condition(SolarPowerBelow, v, Null), ctx, clock) == Success(false)
  {
  }

  /** Negative grid power is export: `grid_export_above` holds iff the power is
      negative and its magnitude reaches the value; `grid_import_above` iff it
      is positive and reaches the value; a missing reading is 0, so neither. */
  lemma GridConditions(ctx: Context, clock: TimeOfDay, v: Value, y: real, x: real)
    requires AsNumber(v) == Some(Finite(y))
    requires ReadsAs(ctx, "grid_power", 0.0, x)
    ensures ConditionHolds(Condition(GridExportAbove, v, Null), ctx, clock) == Success(x < 0.0 && -x >= y)
    ensures ConditionHolds(Condition(GridImportAbove, v, Null), ctx, clock) == Success(x > 0.0 && x >= y)
  {
    var grid := Get(ctx, "grid_power", Int(0));
    if x < 0.0 {
      assert AsNumber(AbsValue(grid)) == Some(Finite(-x));
    }
  }

  /** Export and import never hold together, whatever the reading and values. */
  lemma ExportAndImportExclusive(ctx: Context, clock: TimeOfDay, v: Value, w: Value)
    ensures !(ConditionHolds(Condition(GridExportAbove, v, Null), ctx, clock) == Success(true)
              && ConditionHolds(Condition(GridImportAbove, w, Null), ctx, clock) == Success(true))
  {
  }

  /** A text threshold against a numeric reading raises TypeError, which
      evaluation turns into `false`. */
  lemma MistypedThresholdIsFalse(clock: TimeOfDay, kind: ConditionKind, s: string)
    requires kind != TimeBetween && kind != OffpeakHours && kind != GridExportAbove && kind != GridImportAbove
    ensures ConditionHolds(Condition(kind, Str(s), Null), map[], clock) == Success(false)
  {
  }

  lemma ClockTextParses(h: nat, m: nat, text: string)
    requires h < 24 && m < 60 && text == ClockText(h, m)
    ensures ParseTime(Str(text)) == Success(ClockTime(h, m))
  {
    ParseClockText(h, m);
  }

  /** The stored default window texts parse to their times of day. */
  lemma DefaultWindowTimes()
    ensures ParseTime(Str(DEFAULT_OFFPEAK_START)) == Success(ClockTime(22, 0))
    ensures ParseTime(Str(DEFAULT_OFFPEAK_END)) == Success(ClockTime(6, 0))
    ensures ParseTime(Str(DEFAULT_SOLAR_START)) == Success(ClockTime(10, 0))
    ensures ParseTime(Str(DEFAULT_SOLAR_END)) == Success(ClockTime(17, 0))
  {
    ClockTextParses(22, 0, DEFAULT_OFFPEAK_START);
    ClockTextParses(6, 0, DEFAULT_OFFPEAK_END);
    ClockTextParses(10, 0, DEFAULT_SOLAR_START);
    ClockTextParses(17, 0, DEFAULT_SOLAR_END);
  }

  /** Reading an off-peak bound as `ContextTime` with the parsed default is
      `_parse_time(context.get(key, default_text))`. */
  lemma OffpeakBoundsParseDefaults(ctx: Context)
    ensures ContextTime(ctx, "offpeak_start", ClockTime(22, 0)) == ParseTime(Get(ctx, "offpeak_start", Str(DEFAULT_OFFPEAK_START)))
    ensures ContextTime(ctx, "offpeak_end", ClockTime(6, 0)) == ParseTime(Get(ctx, "offpeak_end", Str(DEFAULT_OFFPEAK_END)))
  {
    DefaultWindowTimes();
  }

  /** `time_between` with two "HH:MM" texts holds exactly inside that window. */
  lemma TimeBetweenWindow(ctx: Context, clock: TimeOfDay, h1: nat, m1: nat, h2: nat, m2: nat)
    requires h1 < 24 && m1 < 60 && h2 < 24 && m2 < 60
    ensures ConditionHolds(Condition(TimeBetween, Str(ClockText(h1, m1)), Str(ClockText(h2, m2))), ctx, clock)
      == Success(TimeInRange(clock, ClockTime(h1, m1), ClockTime(h2, m2)))
  {
    ParseClockText(h1, m1);
    ParseClockText(h2, m2);
    ParsedWindow(ctx, clock, Str(ClockText(h1, m1)), Str(ClockText(h2, m2)), ClockTime(h1, m1), ClockTime(h2, m2));
  }

  /** `time_between` with two texts that parse holds exactly inside their window. */
  lemma ParsedWindow(ctx: Context, clock: TimeOfDay, v: Value, w: Value, start: TimeOfDay, end: TimeOfDay)
    requires ParseTime(v) == Success(start) && ParseTime(w) == Success(end)
    ensures ConditionHolds(Condition(TimeBetween, v, w), ctx, clock) == Success(TimeInRange(clock, start, end))
  {
    assert EvalCondition(Condition(TimeBetween, v, w), ctx, clock) == Success(TimeInRange(clock, start, end));
  }

  /** `offpeak_hours` holds exactly inside the window its context times give. */
  lemma OffpeakWindow(ctx: Context, clock: TimeOfDay, v: Value, start: TimeOfDay, end: TimeOfDay)
    requires ContextTime(ctx, "offpeak_start", ClockTime(22, 0)) == Success(start)
    requires ContextTime(ctx, "offpeak_end", ClockTime(6, 0)) == Success(end)
    ensures ConditionHolds(Condition(OffpeakHours, v, Null), ctx, clock) == Success(TimeInRange(clock, start, end))
  {
    assert EvalCondition(Condition(OffpeakHours, v, Null), ctx, clock) == Success(TimeInRange(clock, start, end));
  }

  /** Without configured hours, `offpeak_hours` is the 22:00-06:00 window. */
  lemma OffpeakDefaultWindow(ctx: Context, clock: TimeOfDay, v: Value)
    requires "offpeak_start" !in ctx && "offpeak_end" !in ctx
    ensures ConditionHolds(Condition(OffpeakHours, v, Null), ctx, clock)
      == Success(TimeInRange(clock, ClockTime(22, 0), ClockTime(6, 0)))
  {
    DefaultWindowTimes();
    OffpeakWindow(ctx, clock, v, ClockTime(22, 0), ClockTime(6, 0));
  }

  /** A start time without ':' whose text is a number raises IndexError, which
      escapes condition evaluation. */
  lemma WindowWithoutColonEscapes(ctx: Context, clock: TimeOfDay, s: string, end: Value)
    requires forall k :: 0 <= k < |s| ==> s[k] != ':'
    requires ParseInt(s).Some?
    ensures ConditionHolds(Condition(TimeBetween, Str(s), end), ctx, clock) == Failure(IndexError)
  {
    ParseTimeWithoutColon(s);
  }

  /** A window bound that is neither text nor a time (the `True` the off-peak
      default rule carries, say) has no `split`: AttributeError escapes. */
  lemma WindowOfNonTextEscapes(ctx: Context, clock: TimeOfDay, b: bool, end: Value)
    ensures ConditionHolds(Condition(TimeBetween, Bool(b), end), ctx, clock) == Failure(AttributeError)
  {
  }

  /** A window bound whose hour or minute does not fit a C `int` raises
      OverflowError in `time`, which escapes condition evaluation. */
  lemma WindowOverflowEscapes(ctx: Context, clock: TimeOfDay, v: Value, end: Value)
    requires ParseTime(v) == Failure(OverflowError)
    ensures ConditionHolds(Condition(TimeBetween, v, end), ctx, clock) == Failure(OverflowError)
  {
  }

  /** A window start whose hour has more than MAX_STR_DIGITS digits is refused by
      `int()` with ValueError, which is caught: the condition is false and the
      tick goes on. */
  lemma LongWindowHourIsFalse(ctx: Context, clock: TimeOfDay, hour: string, s: string, end: Value)
    requires AllDigits(hour) && |hour| > MAX_STR_DIGITS
    requires s == hour + [':', '0', '0']
    ensures ConditionHolds(Condition(TimeBetween, Str(s), end), ctx, clock) == Success(false)
  {
    LongHourIsValueError(hour, s);
  }

  // ---------------------------------------------------------------- rules

  /** `all(condition.evaluate(context) ...)`: stops at the first false condition
      or the first escaping exception. */
  function AllHold(cs: seq<Condition>, ctx: Context, clock: TimeOfDay): (r: Result<bool, PyError>)
    ensures cs == [] ==> r == Success(true)
    decreases |cs|
  {
    if cs == [] then Success(true)
    else
      var first := ConditionHolds(cs[0], ctx, clock);
      if first.Failure? then Failure(first.error)
      else if !first.value then Success(false)
      else AllHold(cs[1..], ctx, clock)
  }

  /** `all` is true exactly when every condition holds, and an exception it
      passes on comes from one of the conditions. */
  lemma {:induction false} AllHoldMeansEvery(cs: seq<Condition>, ctx: Context, clock: TimeOfDay)
    ensures AllHold(cs, ctx, clock) == Success(true) <==> forall i :: 0 <= i < |cs| ==> ConditionHolds(cs[i], ctx, clock) == Success(true)
    ensures AllHold(cs, ctx, clock).Failure? ==> exists i :: 0 <= i < |cs| && ConditionHolds(cs[i], ctx, clock) == Failure(AllHold(cs, ctx, clock).error)
    decreases |cs|
  {
    if cs != [] {
      AllHoldMeansEvery(cs[1..], ctx, clock);
      assert forall i :: 1 <= i < |cs| ==> cs[i] == cs[1..][i - 1];
      var first := ConditionHolds(cs[0], ctx, clock);
      if first == Success(true) {
        var r := AllHold(cs[1..], ctx, clock);
        assert AllHold(cs, ctx, clock) == r;
        if r.Failure? {
          var i :| 0 <= i < |cs[1..]| && ConditionHolds(cs[1..][i], ctx, clock) == Failure(r.error);
          assert ConditionHolds(cs[i + 1], ctx, clock) == Failure(r.error);
        }
      }
    }
  }

  /** `Rule.evaluate`: false when disabled, otherwise all of its conditions. */
  function RuleMatches(rule: Rule, ctx: Context, clock: TimeOfDay): (r: Result<bool, PyError>)
    ensures !rule.enabled ==> r == Success(false)
    ensures rule.enabled && rule.conditions == [] ==> r == Success(true)
  {
    if !rule.enabled then Success(false) else AllHold(rule.conditions, ctx, clock)
  }

  /** A rule matches exactly when it is enabled and every condition holds. */
  lemma RuleMatchesIff(rule: Rule, ctx: Context, clock: TimeOfDay)
    ensures RuleMatches(rule, ctx, clock) == Success(true) <==>
      rule.enabled && forall i :: 0 <= i < |rule.conditions| ==> ConditionHolds(rule.conditions[i], ctx, clock) == Success(true)
  {
    AllHoldMeansEvery(rule.conditions, ctx, clock);
  }

  // ---------------------------------------------------------------- order

  predicate SortedByPriority(rs: seq<Rule>) {
    forall i, j :: 0 <= i < j < |rs| ==> rs[i].priority >= rs[j].priority
  }

  /** Insert before the first rule of no higher priority: a later equal rule
      stays behind it. */
  function Insert(x: Rule, s: seq<Rule>): (r: seq<Rule>)
    ensures |r| == |s| + 1
  {
    if s == [] || x.priority >= s[0].priority then [x] + s
    else [s[0]] + Insert(x, s[1..])
  }

  /** Inserting adds exactly the one rule. */
  lemma {:induction false} InsertPermutes(x: Rule, s: seq<Rule>)
    ensures multiset(Insert(x, s)) == multiset(s) + multiset{x}
    decreases |s|
  {
    if s != [] && x.priority < s[0].priority {
      InsertPermutes(x, s[1..]);
      assert s == [s[0]] + s[1..];
    }
  }

  /** `rules.sort(key=priority, reverse=True)`: a stable sort, highest first. */
  function SortByPriority(rs: seq<Rule>): seq<Rule> {
    if rs == [] then [] else Insert(rs[0], SortByPriority(rs[1..]))
  }

  lemma {:induction false} InsertSorted(x: Rule, s: seq<Rule>)
    requires SortedByPriority(s)
    ensures SortedByPriority(Insert(x, s))
    decreases |s|
  {
    if s != [] && x.priority < s[0].priority {
      InsertSorted(x, s[1..]);
      var rest := Insert(x, s[1..]);
      InsertPermutes(x, s[1..]);
      forall j | 0 <= j < |rest|
        ensures s[0].priority >= rest[j].priority
      {
        assert rest[j] in multiset(rest);
        assert rest[j] == x || rest[j] in multiset(s[1..]);
        if rest[j] != x {
          var k :| 0 <= k < |s[1..]| && s[1..][k] == rest[j];
          assert s[k + 1] == rest[j];
        }
      }
    }
  }

  /** The sorted list is ordered by descending priority and holds the same
      rules, each as often. */
  lemma {:induction false} SortIsOrderedPermutation(rs: seq<Rule>)
    ensures SortedByPriority(SortByPriority(rs))
    ensures multiset(SortByPriority(rs)) == multiset(rs)
    ensures |SortByPriority(rs)| == |rs|
    decreases |rs|
  {
    if rs != [] {
      SortIsOrderedPermutation(rs[1..]);
      InsertSorted(rs[0], SortByPriority(rs[1..]));
      InsertPermutes(rs[0], SortByPriority(rs[1..]));
      assert rs == [rs[0]] + rs[1..];
    }
  }

  /** The rules of priority `p`, in order. */
  function WithPriority(rs: seq<Rule>, p: int): seq<Rule> {
    if rs == [] then []
    else (if rs[0].priority == p then [rs[0]] else []) + WithPriority(rs[1..], p)
  }

  lemma {:induction false} InsertKeepsTies(x: Rule, s: seq<Rule>, p: int)
    ensures WithPriority(Insert(x, s), p) == (if x.priority == p then [x] else []) + WithPriority(s, p)
    decreases |s|
  {
    var xs: seq<Rule> := if x.priority == p then [x] else [];
    var r := Insert(x, s);
    if s == [] || x.priority >= s[0].priority {
      assert r == [x] + s;
      assert r[0] == x && r[1..] == s;
      assert WithPriority(r, p) == xs + WithPriority(s, p);
    } else {
      var s0: seq<Rule> := if s[0].priority == p then [s[0]] else [];
      InsertKeepsTies(x, s[1..], p);
      assert r == [s[0]] + Insert(x, s[1..]);
      assert r[0] == s[0] && r[1..] == Insert(x, s[1..]);
      assert WithPriority(r, p) == s0 + (xs + WithPriority(s[1..], p));
      assert WithPriority(s, p) == s0 + WithPriority(s[1..], p);
      assert s0 == [] || xs == [];
      assert s0 + (xs + WithPriority(s[1..], p)) == xs + (s0 + WithPriority(s[1..], p));
    }
  }

  /** Stability: rules of equal priority keep their relative order. */
  lemma {:induction false} SortIsStable(rs: seq<Rule>, p: int)
    ensures WithPriority(SortByPriority(rs), p) == WithPriority(rs, p)
    decreases |rs|
  {
    if rs != [] {
      SortIsStable(rs[1..], p);
      InsertKeepsTies(rs[0], SortByPriority(rs[1..]), p);
    }
  }

  /** Sorting an already sorted list changes nothing, so `evaluate` re-sorting
      after `add_rule` sorted is harmless. */
  lemma {:induction false} SortOfSortedIsIdentity(rs: seq<Rule>)
    requires SortedByPriority(rs)
    ensures SortByPriority(rs) == rs
    decreases |rs|
  {
    if rs != [] {
      assert SortedByPriority(rs[1..]);
      SortOfSortedIsIdentity(rs[1..]);
      if |rs| > 1 {
        assert rs[1..][0] == rs[1];
      }
      assert rs == [rs[0]] + rs[1..];
    }
  }

  // ---------------------------------------------------------------- names

  predicate HasName(rs: seq<Rule>, name: string) {
    exists i :: 0 <= i < |rs| && rs[i].name == name
  }

  /** `[r for r in rules if r.name != name]`. */
  function WithoutName(rs: seq<Rule>, name: string): (r: seq<Rule>)
    ensures !HasName(r, name)
    ensures forall x :: multiset(r)[x] == if x.name == name then 0 else multiset(rs)[x]
    ensures |r| < |rs| <==> HasName(rs, name)
    ensures |r| <= |rs|
    ensures !HasName(rs, name) ==> r == rs
    decreases |rs|
  {
    if rs == [] then []
    else
      var rest := WithoutName(rs[1..], name);
      assert rs == [rs[0]] + rs[1..];
      HasNameCons(rs[0], rs[1..], name);
      if rs[0].name == name then rest
      else
        HasNameCons(rs[0], rest, name);
        [rs[0]] + rest
  }

  /** The filter keeps the order of the rules it keeps: filtering a
      concatenation filters each part in turn. */
  lemma {:induction false} WithoutNameAppend(a: seq<Rule>, b: seq<Rule>, name: string)
    ensures WithoutName(a + b, name) == WithoutName(a, name) + WithoutName(b, name)
    decreases |a|
  {
    if a == [] {
      EmptyAppend(a, b);
    } else {
      WithoutNameAppend(a[1..], b, name);
      WithoutNameAppendStep(a, b, name);
    }
  }

  /** The inductive step of `WithoutNameAppend`: from the tail to the whole list. */
  lemma WithoutNameAppendStep(a: seq<Rule>, b: seq<Rule>, name: string)
    requires a != []
    requires WithoutName(a[1..] + b, name) == WithoutName(a[1..], name) + WithoutName(b, name)
    ensures WithoutName(a + b, name) == WithoutName(a, name) + WithoutName(b, name)
  {
    var t := a[1..];
    var head := if a[0].name == name then [] else [a[0]];
    var x, y := WithoutName(t, name), WithoutName(b, name);
    SplitHead(a, b);
    WithoutNameCons(a[0], t + b, name);
    WithoutNameCons(a[0], t, name);
    AppendAssoc(head, x, y);
  }

  lemma EmptyAppend<T>(a: seq<T>, b: seq<T>)
    requires a == []
    ensures a + b == b
  {
  }

  lemma SplitHead<T>(a: seq<T>, b: seq<T>)
    requires a != []
    ensures a == [a[0]] + a[1..]
    ensures a + b == [a[0]] + (a[1..] + b)
  {
  }

  lemma AppendAssoc<T>(a: seq<T>, b: seq<T>, c: seq<T>)
    ensures a + (b + c) == (a + b) + c
  {
  }

  /** The filter of a list with a first rule: that rule, if it is kept, then the
      filter of the rest. */
  lemma WithoutNameCons(x: Rule, rest: seq<Rule>, name: string)
    ensures WithoutName([x] + rest, name) == if x.name == name then WithoutName(rest, name) else [x] + WithoutName(rest, name)
  {
    var s := [x] + rest;
    assert s[0] == x && s[1..] == rest;
  }

  lemma HasNameCons(x: Rule, rest: seq<Rule>, name: string)
    ensures HasName([x] + rest, name) <==> x.name == name || HasName(rest, name)
  {
    var s := [x] + rest;
    assert s[0] == x;
    if HasName(rest, name) {
      var k :| 0 <= k < |rest| && rest[k].name == name;
      assert s[k + 1].name == name;
    }
    if HasName(s, name) && x.name != name {
      var k :| 0 <= k < |s| && s[k].name == name;
      assert rest[k - 1].name == name;
    }
  }

  /** The position of the first rule with that name, or the length when none has it. */
  function FirstIndex(rs: seq<Rule>, name: string): (k: nat)
    ensures k <= |rs|
    ensures k < |rs| ==> rs[k].name == name
    ensures forall j :: 0 <= j < k ==> rs[j].name != name
    ensures k == |rs| <==> !HasName(rs, name)
    decreases |rs|
  {
    if rs == [] then 0
    else if rs[0].name == name then 0
    else
      var k := FirstIndex(rs[1..], name);
      assert forall j :: 1 <= j < k + 1 ==> rs[j] == rs[1..][j - 1];
      k + 1
  }

  /** `get_rule`: the first rule with that name. */
  function Lookup(rs: seq<Rule>, name: string): (r: Option<Rule>)
    ensures r.Some? <==> HasName(rs, name)
    ensures r.Some? ==> r.value.name == name && r.value in rs
  {
    var k := FirstIndex(rs, name);
    if k < |rs| then Some(rs[k]) else None
  }

  /** `enable_rule`/`disable_rule` on a list: the flag of the first rule with
      that name. */
  function SetEnabled(rs: seq<Rule>, name: string, enabled: bool): seq<Rule> {
    var k := FirstIndex(rs, name);
    if k < |rs| then rs[k := rs[k].(enabled := enabled)] else rs
  }

  /** Only the `enabled` flag of the named rule changes; every other field and
      every other rule is kept, and the named rule then carries the new flag. */
  lemma SetEnabledChangesOnlyFlag(rs: seq<Rule>, name: string, enabled: bool)
    ensures var r := SetEnabled(rs, name, enabled);
      && |r| == |rs|
      && (forall j :: 0 <= j < |rs| ==> r[j] == rs[j].(enabled := r[j].enabled))
      && (forall j :: 0 <= j < |rs| && r[j] != rs[j] ==> rs[j].name == name)
      && (HasName(rs, name) ==> Lookup(r, name) == Some(Lookup(rs, name).value.(enabled := enabled)))
      && (!HasName(rs, name) ==> r == rs)
  {
    var r := SetEnabled(rs, name, enabled);
    var k := FirstIndex(rs, name);
    if k < |rs| {
      assert FirstIndex(r, name) == k by {
        assert r[k].name == name;
        assert forall j :: 0 <= j < k ==> r[j].name != name;
        FirstIndexUnique(r, name, k);
      }
    }
  }

  lemma FirstIndexUnique(rs: seq<Rule>, name: string, k: nat)
    requires k < |rs| && rs[k].name == name
    requires forall j :: 0 <= j < k ==> rs[j].name != name
    ensures FirstIndex(rs, name) == k
  {
  }

  /** `add_rule` on a list: drop rules of the same name, append, sort. */
  function Upsert(rs: seq<Rule>, rule: Rule): seq<Rule> {
    SortByPriority(WithoutName(rs, rule.name) + [rule])
  }

  /** After `add_rule(r)` the rule `r` is there exactly once and no other rule
      shares its name, every other rule is kept as often as before, and the
      list is priority-ordered. */
  lemma UpsertProperties(rs: seq<Rule>, rule: Rule)
    ensures var r := Upsert(rs, rule);
      && SortedByPriority(r)
      && (forall x :: multiset(r)[x] == if x.name == rule.name then (if x == rule then 1 else 0) else multiset(rs)[x])
      && (forall i :: 0 <= i < |r| && r[i].name == rule.name ==> r[i] == rule)
      && Lookup(r, rule.name) == Some(rule)
  {
    var r := Upsert(rs, rule);
    UpsertCounts(rs, rule, r);
    forall i | 0 <= i < |r| && r[i].name == rule.name
      ensures r[i] == rule
    {
      assert r[i] in multiset(r);
    }
    assert rule in multiset(r);
    var i :| 0 <= i < |r| && r[i] == rule;
    assert HasName(r, rule.name);
  }

  lemma UpsertCounts(rs: seq<Rule>, rule: Rule, r: seq<Rule>)
    requires r == Upsert(rs, rule)
    ensures SortedByPriority(r)
    ensures forall x :: multiset(r)[x] == if x.name == rule.name then (if x == rule then 1 else 0) else multiset(rs)[x]
  {
    var w := WithoutName(rs, rule.name);
    SortIsOrderedPermutation(w + [rule]);
    assert multiset(r) == multiset(w) + multiset{rule};
    forall x: Rule
      ensures multiset(r)[x] == if x.name == rule.name then (if x == rule then 1 else 0) else multiset(rs)[x]
    {
      assert multiset(r)[x] == multiset(w)[x] + multiset{rule}[x];
    }
  }

  // ---------------------------------------------------------------- evaluation

  /** The outcome of `RuleEngine.evaluate`: the actions and the triggered names. */
  datatype Evaluation = Evaluation(actions: seq<Action>, triggered: seq<string>)

  /** The first rule, in list order, that matches; an escaping exception ends
      the scan. */
  function FirstMatch(rs: seq<Rule>, ctx: Context, clock: TimeOfDay): (r: Result<Evaluation, PyError>)
    ensures r.Success? ==> |r.value.triggered| <= 1
    ensures r.Success? && r.value.triggered == [] ==> r.value.actions == []
    decreases |rs|
  {
    if rs == [] then Success(Evaluation([], []))
    else
      var m := RuleMatches(rs[0], ctx, clock);
      if m.Failure? then Failure(m.error)
      else if m.value then Success(Evaluation(rs[0].actions, [rs[0].name]))
      else FirstMatch(rs[1..], ctx, clock)
  }

  /** First match wins: a triggered name and its actions belong to a matching
      rule before which no rule matches; no name means no rule matches; an
      error comes from a rule before which none matches. */
  lemma {:induction false} FirstMatchIsFirst(rs: seq<Rule>, ctx: Context, clock: TimeOfDay)
    ensures var r := FirstMatch(rs, ctx, clock);
      && (r.Success? && r.value.triggered == [] ==>
            forall j :: 0 <= j < |rs| ==> RuleMatches(rs[j], ctx, clock) == Success(false))
      && (r.Success? && r.value.triggered != [] ==>
            exists i :: 0 <= i < |rs| && RuleMatches(rs[i], ctx, clock) == Success(true)
              && r.value == Evaluation(rs[i].actions, [rs[i].name])
              && forall j :: 0 <= j < i ==> RuleMatches(rs[j], ctx, clock) == Success(false))
      && (r.Failure? ==>
            exists i :: 0 <= i < |rs| && RuleMatches(rs[i], ctx, clock) == Failure(r.error)
              && forall j :: 0 <= j < i ==> RuleMatches(rs[j], ctx, clock) == Success(false))
    decreases |rs|
  {
    if rs != [] {
      var m := RuleMatches(rs[0], ctx, clock);
      if m.Success? && !m.value {
        FirstMatchIsFirst(rs[1..], ctx, clock);
        var r := FirstMatch(rs[1..], ctx, clock);
        assert forall j :: 1 <= j < |rs| ==> rs[j] == rs[1..][j - 1];
        if r.Success? && r.value.triggered != [] {
          var i :| 0 <= i < |rs[1..]| && RuleMatches(rs[1..][i], ctx, clock) == Success(true)
              && r.value == Evaluation(rs[1..][i].actions, [rs[1..][i].name])
              && forall j :: 0 <= j < i ==> RuleMatches(rs[1..][j], ctx, clock) == Success(false);
          assert RuleMatches(rs[i + 1], ctx, clock) == Success(true);
        }
        if r.Failure? {
          var i :| 0 <= i < |rs[1..]| && RuleMatches(rs[1..][i], ctx, clock) == Failure(r.error)
              && forall j :: 0 <= j < i ==> RuleMatches(rs[1..][j], ctx, clock) == Success(false);
          assert RuleMatches(rs[i + 1], ctx, clock) == Failure(r.error);
        }
      }
    }
  }

  /** On a priority-ordered list the triggered rule has the highest priority of
      all matching rules: with matches at 90 and 60, the 90 rule is returned. */
  lemma HighestPriorityWins(rs: seq<Rule>, ctx: Context, clock: TimeOfDay, j: nat)
    requires SortedByPriority(rs)
    requires FirstMatch(rs, ctx, clock).Success?
    requires j < |rs| && RuleMatches(rs[j], ctx, clock) == Success(true)
    ensures exists i :: (0 <= i <= j && RuleMatches(rs[i], ctx, clock) == Success(true)
      && FirstMatch(rs, ctx, clock).value == Evaluation(rs[i].actions, [rs[i].name])
      && rs[i].priority >= rs[j].priority)
  {
    FirstMatchIsFirst(rs, ctx, clock);
    var r := FirstMatch(rs, ctx, clock);
    var i :| 0 <= i < |rs| && RuleMatches(rs[i], ctx, clock) == Success(true)
      && r.value == Evaluation(rs[i].actions, [rs[i].name])
      && forall k :: 0 <= k < i ==> RuleMatches(rs[k], ctx, clock) == Success(false);
  }

  /** Two enabled rules without conditions at priorities 60 and 90, in either
      list order: once sorted, only the 90 rule triggers. */
  lemma PriorityNinetyBeatsSixty(ctx: Context, clock: TimeOfDay, low: Rule, high: Rule)
    requires low.enabled && high.enabled && low.conditions == [] && high.conditions == []
    requires low.priority == 60 && high.priority == 90
    ensures FirstMatch(SortByPriority([low, high]), ctx, clock) == Success(Evaluation(high.actions, [high.name]))
    ensures FirstMatch(SortByPriority([high, low]), ctx, clock) == Success(Evaluation(high.actions, [high.name]))
  {
    assert SortByPriority([high]) == [high];
    assert SortByPriority([low]) == [low];
    assert [low, high][1..] == [high];
    assert [high, low][1..] == [low];
  }

  /** The outcome of `should_heat`. */
  datatype Decision = Decision(heat: bool, rule: Option<string>)

  /** The first name, if any. */
  function FirstName(triggered: seq<string>): (n: Option<string>)
    ensures n.Some? <==> triggered != []
    ensures n.Some? ==> n.value == triggered[0]
  {
    if triggered != [] then Some(triggered[0]) else None
  }

  /** `should_heat` after `evaluate`: the first heater action decides, with the
      triggered name; without one the answer is "off" with no name. */
  function HeatDecision(actions: seq<Action>, triggered: seq<string>): (d: Decision)
    ensures (forall i :: 0 <= i < |actions| ==> actions[i].kind == SetHeatingMode) ==> d == Decision(false, None)
    ensures (exists i :: 0 <= i < |actions| && actions[i].kind != SetHeatingMode) ==> d.rule == FirstName(triggered)
    decreases |actions|
  {
    if actions == [] then Decision(false, None)
    else if actions[0].kind == TurnOnHeater then Decision(true, FirstName(triggered))
    else if actions[0].kind == TurnOffHeater then Decision(false, FirstName(triggered))
    else
      assert (exists i :: 0 <= i < |actions| && actions[i].kind != SetHeatingMode) ==>
        (exists i :: 0 <= i < |actions[1..]| && actions[1..][i].kind != SetHeatingMode) by {
        if exists i :: 0 <= i < |actions| && actions[i].kind != SetHeatingMode {
          var i :| 0 <= i < |actions| && actions[i].kind != SetHeatingMode;
          assert actions[1..][i - 1].kind != SetHeatingMode;
        }
      }
      assert forall i :: 1 <= i < |actions| ==> actions[i] == actions[1..][i - 1];
      HeatDecision(actions[1..], triggered)
  }

  /** Position `i` holds the first heater action and it turns the heater on. */
  predicate TurnsOnFirstAt(actions: seq<Action>, i: int) {
    0 <= i < |actions| && actions[i].kind == TurnOnHeater
    && forall j :: 0 <= j < i ==> actions[j].kind == SetHeatingMode
  }

  /** The answer is "on" exactly when the first heater action (skipping mode
      changes) turns the heater on. */
  lemma {:induction false} HeatDecisionFollowsFirstHeaterAction(actions: seq<Action>, triggered: seq<string>)
    ensures HeatDecision(actions, triggered).heat <==> exists i :: TurnsOnFirstAt(actions, i)
    decreases |actions|
  {
    if actions != [] && actions[0].kind == SetHeatingMode {
      var tail := actions[1..];
      HeatDecisionFollowsFirstHeaterAction(tail, triggered);
      if exists i :: TurnsOnFirstAt(tail, i) {
        var i :| TurnsOnFirstAt(tail, i);
        forall j | 0 <= j < i + 1
          ensures actions[j].kind == SetHeatingMode
        {
          if j > 0 {
            assert actions[j] == tail[j - 1];
          }
        }
        assert TurnsOnFirstAt(actions, i + 1);
      }
      if exists i :: TurnsOnFirstAt(actions, i) {
        var i :| TurnsOnFirstAt(actions, i);
        forall j | 0 <= j < i - 1
          ensures tail[j].kind == SetHeatingMode
        {
          assert tail[j] == actions[j + 1];
        }
        assert TurnsOnFirstAt(tail, i - 1);
      }
    } else if actions != [] && actions[0].kind == TurnOnHeater {
      assert TurnsOnFirstAt(actions, 0);
    }
  }

  /** `should_heat` over a list: evaluation errors propagate. */
  function ShouldHeatOf(rs: seq<Rule>, ctx: Context, clock: TimeOfDay): Result<Decision, PyError> {
    var e := FirstMatch(SortByPriority(rs), ctx, clock);
    if e.Failure? then Failure(e.error) else Success(HeatDecision(e.value.actions, e.value.triggered))
  }

  /** With every rule removed the answer is always "off" with no rule. */
  lemma NoRulesNeverHeat(ctx: Context, clock: TimeOfDay)
    ensures ShouldHeatOf([], ctx, clock) == Success(Decision(false, None))
  {
  }

  /** A matching rule's heater action decides; one without heater actions gives
      "off" with no name even though it triggered. */
  lemma MatchedRuleDecides(actions: seq<Action>, name: string)
    ensures actions != [] && actions[0].kind == TurnOnHeater ==> HeatDecision(actions, [name]) == Decision(true, Some(name))
    ensures actions != [] && actions[0].kind == TurnOffHeater ==> HeatDecision(actions, [name]) == Decision(false, Some(name))
    ensures (forall i :: 0 <= i < |actions| ==> actions[i].kind == SetHeatingMode) ==> HeatDecision(actions, [name]) == Decision(false, None)
  {
  }

  // ---------------------------------------------------------------- defaults

  function OnAction(): Action { Action(TurnOnHeater, Null) }
  function OffAction(): Action { Action(TurnOffHeater, Null) }

  function SolarExcessRule(): Rule {
    Rule("solar_excess",
      [Condition(BatterySocAbove, Int(DEFAULT_MIN_SOC), Null),
       Condition(SolarPowerAbove, Int(DEFAULT_MIN_SOLAR_POWER), Null),
       Condition(TimeBetween, Str(DEFAULT_SOLAR_START), Str(DEFAULT_SOLAR_END)),
       Condition(TankTempBelow, Int(55), Null)],
      [OnAction()], true, 80, "Route solar excess to water heater when battery is charged")
  }

  function GridExportRule(): Rule {
    Rule("grid_export_divert",
      [Condition(GridExportAbove, Int(1000), Null),
       Condition(BatterySocAbove, Int(50), Null),
       Condition(TankTempBelow, Int(55), Null)],
      [OnAction()], true, 70, "Divert grid export to water heater")
  }

  function OffpeakFallbackRule(): Rule {
    Rule("offpeak_fallback",
      [Condition(OffpeakHours, Bool(true), Null),
       Condition(DailyHeatingBelow, Int(DEFAULT_MIN_DAILY_HEATING_TIME), Null),
       Condition(TankTempBelow, Int(50), Null)],
      [OnAction()], true, 60, "Heat during off-peak if daily minimum not met")
  }

  function EmergencyRule(): Rule {
    Rule("emergency_heating",
      [Condition(TankTempBelow, Int(35), Null)],
      [OnAction()], true, 100, "Emergency heating when tank is too cold")
  }

  function TankFullRule(): Rule {
    Rule("tank_full",
      [Condition(TankTempAbove, Int(55), Null)],
      [OffAction()], true, 90, "Stop heating when tank reaches target")
  }

  function BatteryProtectionRule(): Rule {
    Rule("battery_protection",
      [Condition(BatterySocBelow, Int(40), Null),
       Condition(SolarPowerBelow, Int(500), Null)],
      [OffAction()], true, 95, "Stop heating when battery is low")
  }

  /** `_create_default_rules`, in creation order (not sorted). */
  function DefaultRules(): seq<Rule> {
    [SolarExcessRule(), GridExportRule(), OffpeakFallbackRule(), EmergencyRule(), TankFullRule(), BatteryProtectionRule()]
  }

  /** One step of the insertion sort: the head is inserted into the sorted tail. */
  lemma SortCons(rs: seq<Rule>)
    requires rs != []
    ensures SortByPriority(rs) == Insert(rs[0], SortByPriority(rs[1..]))
  {
  }

  /** A rule of lower priority than the head goes past it. */
  lemma InsertPast(x: Rule, s: seq<Rule>)
    requires s != [] && x.priority < s[0].priority
    ensures Insert(x, s) == [s[0]] + Insert(x, s[1..])
  {
  }

  lemma SortTwo(e: Rule, f: Rule)
    requires e.priority == 90 && f.priority == 95
    ensures SortByPriority([e, f]) == [f, e]
  {
    assert [e, f][1..] == [f] && [f][1..] == [];
    SortCons([f]);
    assert SortByPriority([f]) == [f];
    SortCons([e, f]);
    InsertPast(e, [f]);
  }

  lemma SortThree(d: Rule, e: Rule, f: Rule)
    requires d.priority == 100 && e.priority == 90 && f.priority == 95
    ensures SortByPriority([d, e, f]) == [d, f, e]
  {
    SortTwo(e, f);
    assert [d, e, f][1..] == [e, f];
    SortCons([d, e, f]);
  }

  lemma SortFour(c: Rule, d: Rule, e: Rule, f: Rule)
    requires c.priority == 60 && d.priority == 100 && e.priority == 90 && f.priority == 95
    ensures SortByPriority([c, d, e, f]) == [d, f, e, c]
  {
    SortThree(d, e, f);
    assert [c, d, e, f][1..] == [d, e, f];
    SortCons([c, d, e, f]);
    InsertPast(c, [d, f, e]);
    assert [d, f, e][1..] == [f, e];
    InsertPast(c, [f, e]);
    assert [f, e][1..] == [e];
    InsertPast(c, [e]);
    assert [e][1..] == [];
  }

  lemma SortFive(b: Rule, c: Rule, d: Rule, e: Rule, f: Rule)
    requires b.priority == 70 && c.priority == 60 && d.priority == 100 && e.priority == 90 && f.priority == 95
    ensures SortByPriority([b, c, d, e, f]) == [d, f, e, b, c]
  {
    SortFour(c, d, e, f);
    assert [b, c, d, e, f][1..] == [c, d, e, f];
    SortCons([b, c, d, e, f]);
    InsertPast(b, [d, f, e, c]);
    assert [d, f, e, c][1..] == [f, e, c];
    InsertPast(b, [f, e, c]);
    assert [f, e, c][1..] == [e, c];
    InsertPast(b, [e, c]);
    assert [e, c][1..] == [c];
  }

  /** Six rules created at priorities 80, 70, 60, 100, 90, 95 sort into the
      order 100, 95, 90, 80, 70, 60. */
  lemma SortSixByPriority(a: Rule, b: Rule, c: Rule, d: Rule, e: Rule, f: Rule)
    requires a.priority == 80 && b.priority == 70 && c.priority == 60
    requires d.priority == 100 && e.priority == 90 && f.priority == 95
    ensures SortByPriority([a, b, c, d, e, f]) == [d, f, e, a, b, c]
  {
    SortFive(b, c, d, e, f);
    assert [a, b, c, d, e, f][1..] == [b, c, d, e, f];
    SortCons([a, b, c, d, e, f]);
    InsertPast(a, [d, f, e, b, c]);
    assert [d, f, e, b, c][1..] == [f, e, b, c];
    InsertPast(a, [f, e, b, c]);
    assert [f, e, b, c][1..] == [e, b, c];
    InsertPast(a, [e, b, c]);
    assert [e, b, c][1..] == [b, c];
  }

  /** Sorted, the defaults run emergency (100), battery protection (95), tank
      full (90), solar excess (80), grid export (70), off-peak (60). */
  lemma DefaultOrder()
    ensures SortByPriority(DefaultRules()) ==
      [EmergencyRule(), BatteryProtectionRule(), TankFullRule(), SolarExcessRule(), GridExportRule(), OffpeakFallbackRule()]
  {
    SortSixByPriority(SolarExcessRule(), GridExportRule(), OffpeakFallbackRule(), EmergencyRule(), TankFullRule(), BatteryProtectionRule());
  }

  /** The head rule of the list decides when it matches. */
  lemma LeadingMatchDecides(rs: seq<Rule>, ctx: Context, clock: TimeOfDay)
    requires rs != [] && RuleMatches(rs[0], ctx, clock) == Success(true)
    ensures FirstMatch(rs, ctx, clock) == Success(Evaluation(rs[0].actions, [rs[0].name]))
  {
  }

  /** The emergency rule matches any tank reading of at most 35 C. */
  lemma EmergencyRuleMatches(r: Rule, ctx: Context, clock: TimeOfDay, t: real)
    requires r.enabled && r.conditions == [Condition(TankTempBelow, Int(35), Null)]
    requires "tank_temp" in ctx && AsNumber(ctx["tank_temp"]) == Some(Finite(t)) && t <= 35.0
    ensures RuleMatches(r, ctx, clock) == Success(true)
  {
    assert ConditionHolds(r.conditions[0], ctx, clock) == Success(true);
  }

  /** With the default rules, a tank reading of at most 35 C turns the heater
      on by the emergency rule (priority 100), whatever else matches, such as
      battery protection (off, 95) with a low battery and no sun. */
  lemma EmergencyHeatingWins(ctx: Context, clock: TimeOfDay, t: real)
    requires "tank_temp" in ctx && AsNumber(ctx["tank_temp"]) == Some(Finite(t)) && t <= 35.0
    ensures ShouldHeatOf(DefaultRules(), ctx, clock) == Success(Decision(true, Some("emergency_heating")))
  {
    DefaultOrder();
    var sorted := SortByPriority(DefaultRules());
    assert sorted[0] == EmergencyRule();
    EmergencyRuleMatches(EmergencyRule(), ctx, clock, t);
    LeadingMatchDecides(sorted, ctx, clock);
  }

  /** A rule that does not match hands the decision to the rules after it. */
  lemma LeadingMissDefers(rs: seq<Rule>, ctx: Context, clock: TimeOfDay)
    requires rs != [] && RuleMatches(rs[0], ctx, clock) == Success(false)
    ensures FirstMatch(rs, ctx, clock) == FirstMatch(rs[1..], ctx, clock)
  {
  }

  /** When the head rule misses and the next one matches, the next one decides. */
  lemma SecondMatchDecides(rs: seq<Rule>, ctx: Context, clock: TimeOfDay)
    requires |rs| >= 2 && RuleMatches(rs[0], ctx, clock) == Success(false) && RuleMatches(rs[1], ctx, clock) == Success(true)
    ensures FirstMatch(rs, ctx, clock) == Success(Evaluation(rs[1].actions, [rs[1].name]))
  {
    LeadingMissDefers(rs, ctx, clock);
    LeadingMatchDecides(rs[1..], ctx, clock);
  }

  lemma EmergencyMissesWarmTank(ctx: Context, clock: TimeOfDay, t: real)
    requires "tank_temp" in ctx && AsNumber(ctx["tank_temp"]) == Some(Finite(t)) && t > 35.0
    ensures RuleMatches(EmergencyRule(), ctx, clock) == Success(false)
  {
    TankTempThresholds(ctx, clock, Int(35), 35.0, t);
    assert ConditionHolds(EmergencyRule().conditions[0], ctx, clock) == Success(false);
  }

  lemma BatteryProtectionMatches(ctx: Context, clock: TimeOfDay, soc: real, solar: real)
    requires "battery_soc" in ctx && AsNumber(ctx["battery_soc"]) == Some(Finite(soc)) && soc <= 40.0
    requires "solar_power" in ctx && AsNumber(ctx["solar_power"]) == Some(Finite(solar)) && solar <= 500.0
    ensures RuleMatches(BatteryProtectionRule(), ctx, clock) == Success(true)
  {
    BatteryAndSolarThresholds(ctx, clock, Int(40), 40.0, soc);
    BatteryAndSolarThresholds(ctx, clock, Int(500), 500.0, solar);
    var cs := BatteryProtectionRule().conditions;
    assert ConditionHolds(cs[0], ctx, clock) == Success(true);
    assert ConditionHolds(cs[1], ctx, clock) == Success(true);
    AllHoldMeansEvery(cs, ctx, clock);
  }

  /** With the default rules, a tank above 35 C, a battery at or below 40 %
      and at most 500 W of sun, battery protection (off, 95) decides. */
  lemma BatteryProtectionWins(ctx: Context, clock: TimeOfDay, t: real, soc: real, solar: real)
    requires "tank_temp" in ctx && AsNumber(ctx["tank_temp"]) == Some(Finite(t)) && t > 35.0
    requires "battery_soc" in ctx && AsNumber(ctx["battery_soc"]) == Some(Finite(soc)) && soc <= 40.0
    requires "solar_power" in ctx && AsNumber(ctx["solar_power"]) == Some(Finite(solar)) && solar <= 500.0
    ensures ShouldHeatOf(DefaultRules(), ctx, clock) == Success(Decision(false, Some("battery_protection")))
  {
    EmergencyMissesWarmTank(ctx, clock, t);
    BatteryProtectionMatches(ctx, clock, soc, solar);
    DefaultOrder();
    SecondMatchDecides(SortByPriority(DefaultRules()), ctx, clock);
  }

  // ---------------------------------------------------------------- storage

  function ConditionToValue(c: Condition): Value {
    Dict(map["condition_type" := Str(ConditionKindText(c.kind)), "value" := c.value, "value2" := c.value2])
  }

  /** `RuleAction.to_dict`. */
  function ActionToValue(a: Action): Value {
    Dict(map["action_type" := Str(ActionKindText(a.kind)), "value" := a.value])
  }

  function ConditionValues(cs: seq<Condition>): seq<Value> {
    if cs == [] then [] else [ConditionToValue(cs[0])] + ConditionValues(cs[1..])
  }

  function ActionValues(acts: seq<Action>): seq<Value> {
    if acts == [] then [] else [ActionToValue(acts[0])] + ActionValues(acts[1..])
  }

  /** `Rule.to_dict`. */
  function RuleToValue(r: Rule): Value {
    Dict(map[
      "name" := Str(r.name),
      "conditions" := List(ConditionValues(r.conditions)),
      "actions" := List(ActionValues(r.actions)),
      "enabled" := Bool(r.enabled),
      "priority" := Int(r.priority),
      "description" := Str(r.description)])
  }

  /** Iterating a stored collection whose elements are then indexed by key:
      a list gives its items; an empty text or dict gives nothing; a non-empty
      text or dict gives texts, which cannot be indexed by key (TypeError); any
      other value is not iterable (TypeError). */
  function KeyedItems(v: Value): (r: Result<seq<Value>, PyError>)
    ensures v.List? ==> r == Success(v.items)
    ensures v == Str("") || v == Dict(map[]) ==> r == Success([])
    ensures !v.List? && v != Str("") && v != Dict(map[]) ==> r == Failure(TypeError)
    ensures r.Failure? ==> r.error == TypeError
  {
    match v
    case List(items) => Success(items)
    case Str(s) => if s == "" then Success([]) else Failure(TypeError)
    case Dict(m) => if m == map[] then Success([]) else Failure(TypeError)
    case Null => Failure(TypeError)
    case Bool(_) => Failure(TypeError)
    case Int(_) => Failure(TypeError)
    case Float(_) => Failure(TypeError)
    case PosInf => Failure(TypeError)
    case Time(_) => Failure(TypeError)
    case Stamp(_) => Failure(TypeError)
  }

  /** The condition built from one stored dict: TypeError for a non-dict,
      KeyError for a missing type or value, ValueError for an unknown type. */
  function ConditionFromValue(v: Value): (r: Result<Condition, PyError>)
    ensures r.Failure? ==> r.error == TypeError || r.error == KeyError || r.error == ValueError
  {
    if !v.Dict? then Failure(TypeError)
    else if "condition_type" !in v.entries then Failure(KeyError)
    else
      var kind := ConditionKindOf(v.entries["condition_type"]);
      if kind.Failure? then Failure(kind.error)
      else if "value" !in v.entries then Failure(KeyError)
      else Success(Condition(kind.value, v.entries["value"], Get(v.entries, "value2", Null)))
  }

  /** `RuleAction.from_dict`. */
  function ActionFromValue(v: Value): (r: Result<Action, PyError>)
    ensures r.Failure? ==> r.error == TypeError || r.error == KeyError || r.error == ValueError
  {
    if !v.Dict? then Failure(TypeError)
    else if "action_type" !in v.entries then Failure(KeyError)
    else
      var kind := ActionKindOf(v.entries["action_type"]);
      if kind.Failure? then Failure(kind.error)
      else Success(Action(kind.value, Get(v.entries, "value", Null)))
  }

  function ConditionsFromValues(vs: seq<Value>): (r: Result<seq<Condition>, PyError>)
    ensures r.Success? ==> |r.value| == |vs|
  {
    if vs == [] then Success([])
    else
      var c := ConditionFromValue(vs[0]);
      if c.Failure? then Failure(c.error)
      else
        var rest := ConditionsFromValues(vs[1..]);
        if rest.Failure? then Failure(rest.error) else Success([c.value] + rest.value)
  }

  function ActionsFromValues(vs: seq<Value>): (r: Result<seq<Action>, PyError>)
    ensures r.Success? ==> |r.value| == |vs|
  {
    if vs == [] then Success([])
    else
      var a := ActionFromValue(vs[0]);
      if a.Failure? then Failure(a.error)
      else
        var rest := ActionsFromValues(vs[1..]);
        if rest.Failure? then Failure(rest.error) else Success([a.value] + rest.value)
  }

  /** `Rule.from_dict`: the name, conditions and actions are required in that
      order of evaluation; `enabled`, `priority` and `description` default to
      true, 50 and "". */
  function RuleFromValue(v: Value): (r: Result<Rule, PyError>)
    ensures v.Dict? && "name" in v.entries && r.Success? ==> Str(r.value.name) == v.entries["name"]
    ensures !v.Dict? ==> r == Failure(TypeError)
    ensures v.Dict? && "name" !in v.entries ==> r == Failure(KeyError)
  {
    if !v.Dict? then Failure(TypeError)
    else
      var d := v.entries;
      if "name" !in d then Failure(KeyError)
      else
        var cs := KeyedItems(Get(d, "conditions", List([])));
        if cs.Failure? then Failure(cs.error)
        else
          var conditions := ConditionsFromValues(cs.value);
          if conditions.Failure? then Failure(conditions.error)
          else
            var acts := KeyedItems(Get(d, "actions", List([])));
            if acts.Failure? then Failure(acts.error)
            else
              var actions := ActionsFromValues(acts.value);
              if actions.Failure? then Failure(actions.error)
              else
                var name := d["name"];
                var enabled := Get(d, "enabled", Bool(true));
                var priority := Get(d, "priority", Int(50));
                var description := Get(d, "description", Str(""));
                if !name.Str? || !enabled.Bool? || !priority.Int? || !description.Str? then Failure(Unsupported)
                else Success(Rule(name.s, conditions.value, actions.value, enabled.b, priority.i, description.s))
  }

  lemma {:induction false} ConditionsRoundTrip(cs: seq<Condition>)
    ensures ConditionsFromValues(ConditionValues(cs)) == Success(cs)
    decreases |cs|
  {
    if cs != [] {
      ConditionsRoundTrip(cs[1..]);
      assert ConditionValues(cs)[1..] == ConditionValues(cs[1..]);
      assert [cs[0]] + cs[1..] == cs;
    }
  }

  lemma {:induction false} ActionsRoundTrip(acts: seq<Action>)
    ensures ActionsFromValues(ActionValues(acts)) == Success(acts)
    decreases |acts|
  {
    if acts != [] {
      ActionsRoundTrip(acts[1..]);
      assert ActionValues(acts)[1..] == ActionValues(acts[1..]);
      assert [acts[0]] + acts[1..] == acts;
    }
  }

  /** `Rule.from_dict(rule.to_dict()) == rule`. */
  lemma RuleRoundTrip(r: Rule)
    ensures RuleFromValue(RuleToValue(r)) == Success(r)
  {
    ConditionsRoundTrip(r.conditions);
    ActionsRoundTrip(r.actions);
  }

  function RuleValues(rs: seq<Rule>): seq<Value> {
    if rs == [] then [] else [RuleToValue(rs[0])] + RuleValues(rs[1..])
  }

  /** `RuleEngine.to_dict`. */
  function EngineToValue(rs: seq<Rule>): Value {
    List(RuleValues(rs))
  }

  function RulesFromValues(vs: seq<Value>): (r: Result<seq<Rule>, PyError>)
    ensures r.Success? ==> |r.value| == |vs|
  {
    if vs == [] then Success([])
    else
      var rule := RuleFromValue(vs[0]);
      if rule.Failure? then Failure(rule.error)
      else
        var rest := RulesFromValues(vs[1..]);
        if rest.Failure? then Failure(rest.error) else Success([rule.value] + rest.value)
  }

  /** The rules `RuleEngine.from_dict` builds, before it sorts them. */
  function StoredRules(data: Value): Result<seq<Rule>, PyError> {
    var items := KeyedItems(data);
    if items.Failure? then Failure(items.error) else RulesFromValues(items.value)
  }

  lemma {:induction false} RulesRoundTrip(rs: seq<Rule>)
    ensures RulesFromValues(RuleValues(rs)) == Success(rs)
    decreases |rs|
  {
    if rs != [] {
      RuleRoundTrip(rs[0]);
      RulesRoundTrip(rs[1..]);
      assert RuleValues(rs)[1..] == RuleValues(rs[1..]);
      assert [rs[0]] + rs[1..] == rs;
    }
  }

  /** Loading what `to_dict` stored gives back the same rules, sorted stably by
      priority. */
  lemma EngineRoundTrip(rs: seq<Rule>)
    ensures StoredRules(EngineToValue(rs)) == Success(rs)
    ensures SortByPriority(StoredRules(EngineToValue(rs)).value) == SortByPriority(rs)
  {
    RulesRoundTrip(rs);
  }

  // ---------------------------------------------------------------- the engine

  /** `RuleEngine`: the rule list and the name of the last triggered rule. */
  class RuleEngine {
    var rules: seq<Rule>
    var lastTriggeredRule: Option<string>

    /** The six default rules, unsorted; nothing triggered yet. */
    constructor ()
      ensures rules == DefaultRules() && lastTriggeredRule == None
    {
      rules := DefaultRules();
      lastTriggeredRule := None;
    }

    /** `add_rule`: replace any rule of the same name, then sort. */
    method AddRule(rule: Rule)
      modifies this
      ensures rules == Upsert(old(rules), rule)
      ensures lastTriggeredRule == old(lastTriggeredRule)
    {
      rules := WithoutName(rules, rule.name);
      rules := rules + [rule];
      rules := SortByPriority(rules);
    }

    /** `remove_rule`: true iff a rule of that name was there; no re-sort. */
    method RemoveRule(name: string) returns (removed: bool)
      modifies this
      ensures rules == WithoutName(old(rules), name)
      ensures removed <==> HasName(old(rules), name)
      ensures !HasName(rules, name)
      ensures lastTriggeredRule == old(lastTriggeredRule)
    {
      var initialCount := |rules|;
      rules := WithoutName(rules, name);
      removed := |rules| < initialCount;
    }

    /** The loop of `enable_rule`/`disable_rule`: set the flag of the first rule
        with that name and report whether there was one. */
    method SetRuleEnabled(name: string, enabled: bool) returns (found: bool)
      modifies this
      ensures rules == SetEnabled(old(rules), name, enabled)
      ensures found <==> HasName(old(rules), name)
      ensures lastTriggeredRule == old(lastTriggeredRule)
    {
      var i := 0;
      while i < |rules|
        invariant 0 <= i <= |rules|
        invariant forall j :: 0 <= j < i ==> rules[j].name != name
        invariant rules == old(rules)
      {
        if rules[i].name == name {
          FirstIndexUnique(rules, name, i);
          rules := rules[i := rules[i].(enabled := enabled)];
          return true;
        }
        i := i + 1;
      }
      assert FirstIndex(rules, name) == |rules|;
      return false;
    }

    /** `enable_rule`. */
    method EnableRule(name: string) returns (found: bool)
      modifies this
      ensures rules == SetEnabled(old(rules), name, true)
      ensures found <==> HasName(old(rules), name)
      ensures lastTriggeredRule == old(lastTriggeredRule)
    {
      found := SetRuleEnabled(name, true);
    }

    /** `disable_rule`. */
    method DisableRule(name: string) returns (found: bool)
      modifies this
      ensures rules == SetEnabled(old(rules), name, false)
      ensures found <==> HasName(old(rules), name)
      ensures lastTriggeredRule == old(lastTriggeredRule)
    {
      found := SetRuleEnabled(name, false);
    }

    /** `get_rule`: the first rule with that name, or None. */
    method GetRule(name: string) returns (rule: Option<Rule>)
      ensures rule == Lookup(rules, name)
      ensures rule.Some? <==> HasName(rules, name)
      ensures rule.Some? ==> rule.value.name == name
    {
      var i := 0;
      while i < |rules|
        invariant 0 <= i <= |rules|
        invariant forall j :: 0 <= j < i ==> rules[j].name != name
      {
        if rules[i].name == name {
          FirstIndexUnique(rules, name, i);
          return Some(rules[i]);
        }
        i := i + 1;
      }
      assert FirstIndex(rules, name) == |rules|;
      return None;
    }

    /** `evaluate`: sort, take the first matching rule with its actions, and
        record its name (or None). An escaping exception leaves the list
        sorted and the last triggered name as it was. */
    method Evaluate(ctx: Context, clock: TimeOfDay) returns (result: Result<Evaluation, PyError>)
      modifies this
      ensures rules == SortByPriority(old(rules))
      ensures result == FirstMatch(rules, ctx, clock)
      ensures result.Success? ==> lastTriggeredRule == FirstName(result.value.triggered)
      ensures result.Failure? ==> lastTriggeredRule == old(lastTriggeredRule)
    {
      var triggeredRules: seq<string> := [];
      var actions: seq<Action> := [];
      rules := SortByPriority(rules);
      var i := 0;
      while i < |rules|
        invariant 0 <= i <= |rules|
        invariant triggeredRules == [] && actions == []
        invariant FirstMatch(rules, ctx, clock) == FirstMatch(rules[i..], ctx, clock)
        invariant lastTriggeredRule == old(lastTriggeredRule)
      {
        var matched := RuleMatches(rules[i], ctx, clock);
        assert rules[i..][0] == rules[i] && rules[i..][1..] == rules[i + 1..];
        if matched.Failure? {
          assert FirstMatch(rules, ctx, clock) == Failure(matched.error);
          return Failure(matched.error);
        }
        if matched.value {
          assert FirstMatch(rules, ctx, clock) == Success(Evaluation(rules[i].actions, [rules[i].name]));
          triggeredRules := triggeredRules + [rules[i].name];
          actions := actions + rules[i].actions;
          assert triggeredRules == [rules[i].name] && actions == rules[i].actions;
          break;
        }
        i := i + 1;
      }
      assert FirstMatch(rules, ctx, clock) == Success(Evaluation(actions, triggeredRules)) by {
        if triggeredRules == [] {
          assert rules[i..] == [];
        }
      }
      if triggeredRules != [] {
        lastTriggeredRule := Some(triggeredRules[0]);
      } else {
        lastTriggeredRule := None;
      }
      result := Success(Evaluation(actions, triggeredRules));
    }

    /** `should_heat`: evaluate, then let the first heater action decide. */
    method ShouldHeat(ctx: Context, clock: TimeOfDay) returns (result: Result<Decision, PyError>)
      modifies this
      ensures rules == SortByPriority(old(rules))
      ensures result == ShouldHeatOf(old(rules), ctx, clock)
      ensures var e := FirstMatch(rules, ctx, clock);
        (e.Success? ==> lastTriggeredRule == FirstName(e.value.triggered))
        && (e.Failure? ==> lastTriggeredRule == old(lastTriggeredRule))
    {
      var evaluation := Evaluate(ctx, clock);
      if evaluation.Failure? {
        return Failure(evaluation.error);
      }
      var actions := evaluation.value.actions;
      var triggeredRules := evaluation.value.triggered;
      var i := 0;
      while i < |actions|
        invariant 0 <= i <= |actions|
        invariant HeatDecision(actions, triggeredRules) == HeatDecision(actions[i..], triggeredRules)
      {
        assert actions[i..][0] == actions[i] && actions[i..][1..] == actions[i + 1..];
        if actions[i].kind == TurnOnHeater {
          return Success(Decision(true, if triggeredRules != [] then Some(triggeredRules[0]) else None));
        } else if actions[i].kind == TurnOffHeater {
          return Success(Decision(false, if triggeredRules != [] then Some(triggeredRules[0]) else None));
        }
        i := i + 1;
      }
      return Success(Decision(false, None));
    }

    /** `from_dict`: replace the rules by the stored ones, sorted; an error
        leaves the list as it was. */
    method FromDict(data: Value) returns (error: Option<PyError>)
      modifies this
      ensures var stored := StoredRules(data);
        && (stored.Success? ==> rules == SortByPriority(stored.value) && error == None)
        && (stored.Failure? ==> rules == old(rules) && error == Some(stored.error))
      ensures lastTriggeredRule == old(lastTriggeredRule)
    {
      var stored := StoredRules(data);
      if stored.Failure? {
        return Some(stored.error);
      }
      rules := stored.value;
      rules := SortByPriority(rules);
      error := None;
    }
  }
}
