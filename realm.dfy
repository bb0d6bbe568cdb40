/**
 * The parts of a realm that change after creation: the reduced-precision clock
 * (quantised to the timer resolution, or fuzzed and clamped so it never goes
 * backwards), the set-once Realm builtin, lazily created singletons, and the
 * table of error constructors indexed by error type.
 *
 * The host clock and random source are inputs: `systemNanos` is what
 * System.nanoTime returned and `randomDraw` what the realm's random generator
 * returned for a bound of one millisecond.
 */
module Realm {
  import opened JSValues

  const NANOSECONDS_PER_MILLISECOND: int := 1000000

  // ---------------------------------------------------------------------------
  // Java `long` arithmetic

  /** Two's-complement wrap-around of an exact result into a `long`. */
  function WrapLong(x: int): (r: Long)
    ensures MIN_LONG <= x <= MAX_LONG ==> r == x
    ensures (r - x) % 0x1_0000_0000_0000_0000 == 0
  {
    (x - MIN_LONG) % 0x1_0000_0000_0000_0000 + MIN_LONG
  }

  /** Java's `/` for a positive divisor: the quotient truncated toward zero. */
  function TruncDiv(a: int, d: int): int
    requires d > 0
  {
    if a >= 0 then a / d else -((-a) / d)
  }

  /** Java's `%` for a positive divisor: the remainder takes the sign of the dividend. */
  function TruncRem(a: int, d: int): int
    requires d > 0
  {
    if a >= 0 then a % d else -((-a) % d)
  }

  lemma {:induction false} TruncDivRem(a: int, d: int)
    requires d > 0
    ensures a == TruncDiv(a, d) * d + TruncRem(a, d)
    ensures a >= 0 ==> 0 <= TruncRem(a, d) < d && TruncRem(a, d) <= a
    ensures a < 0 ==> -d < TruncRem(a, d) <= 0 && a <= TruncRem(a, d)
  {
    if a >= 0 {
      NatDivMod(a, d);
    } else {
      NatDivMod(-a, d);
      var q, m := (-a) / d, (-a) % d;
      assert a == (-q) * d + (-m);
    }
  }

  lemma {:induction false} NatDivMod(b: int, d: int)
    requires b >= 0 && d > 0
    ensures b == (b / d) * d + b % d
    ensures 0 <= b % d < d && b % d <= b
  {
    var q := b / d;
    assert q >= 0;
    assert q * d >= 0;
  }

  /**
   * `ns` truncated toward zero to a multiple of `d`: the result is a multiple
   * of `d`, lies between zero and `ns`, and is less than `d` away from `ns`.
   */
  function TruncateTo(ns: Long, d: int): (r: Long)
    requires d > 0
    ensures exists k :: r == k * d
    ensures ns >= 0 ==> 0 <= r <= ns && ns - r < d
    ensures ns < 0 ==> ns <= r <= 0 && r - ns < d
  {
    TruncDivRem(ns, d);
    var r := ns - TruncRem(ns, d);
    assert r == TruncDiv(ns, d) * d;
    r
  }

  /** `(ns / resolution) * resolution` is the same truncation. */
  lemma QuantizeIsTruncation(ns: Long, resolution: int)
    requires resolution > 0
    ensures TruncDiv(ns, resolution) * resolution == TruncateTo(ns, resolution)
  {
    TruncDivRem(ns, resolution);
  }

  /** The fuzz drawn from a bound of one millisecond lies in [1, 1000000]. */
  function Fuzz(randomDraw: int): (fuzz: int)
    requires 0 <= randomDraw < NANOSECONDS_PER_MILLISECOND
    ensures 1 <= fuzz <= NANOSECONDS_PER_MILLISECOND
  {
    randomDraw + 1
  }

  /** Larger of two `long`s. */
  function Max(a: Long, b: Long): (m: Long)
    ensures m >= a && m >= b && (m == a || m == b)
  {
    if a > b then a else b
  }

  // ---------------------------------------------------------------------------
  // Lazily created singletons

  /** The registry of template objects, keyed by the raw strings of a template literal. */
  class TemplateRegistry {
    var entries: map<seq<string>, Value>

    constructor ()
      ensures entries == map[]
    {
      entries := map[];
    }
  }

  class ConsoleUtil {
    constructor ()
    {
    }
  }

  /** The ordinal of each error type picks a distinct slot of the table. */
  lemma OrdinalsAreSlots()
    ensures forall j :: 0 <= j < |ERROR_TYPES| ==> Ordinal(ERROR_TYPES[j]) == j
  {
  }

  class JSRealm {
    /** The context's timer resolution in nanoseconds; zero or less selects fuzzy time. */
    const timerResolution: Long
    /** Whether RegExp static results are kept (the regex result accessors require it). */
    const regexpStaticResult: bool
    const nanoToZeroTimeOffset: Long
    const nanoToCurrentTimeOffset: Long
    var lastFuzzyTime: Long

    var realmBuiltinObject: Option<Value>
    /** The global object's own properties, as far as this model writes them. */
    var globalProperties: map<string, Value>

    var javaPackageToPrimitiveFunction: Option<Value>
    var templateRegistry: Option<TemplateRegistry>
    var regexResult: Option<Value>
    var consoleUtil: Option<ConsoleUtil>

    /** One constructor per error type, at the type's ordinal. */
    const errorConstructors: array<Value>

    /** Every error type's slot holds the constructor made for that type. */
    ghost predicate ErrorConstructorsFilled(createErrorConstructor: ErrorType -> Value)
      reads this, errorConstructors
    {
      && errorConstructors.Length == |ERROR_TYPES|
      && forall t :: errorConstructors[Ordinal(t)] == createErrorConstructor(t)
    }

    /**
     * The realm's clock offsets are taken from the host clock at creation
     * (`startNanos` from System.nanoTime, `startMillis` from
     * System.currentTimeMillis); the error constructors are created one per
     * error type by `createErrorConstructor`.
     */
    constructor (timerResolution: Long, regexpStaticResult: bool, startNanos: Long, startMillis: Long,
                 createErrorConstructor: ErrorType -> Value)
      ensures this.timerResolution == timerResolution && this.regexpStaticResult == regexpStaticResult
      ensures nanoToZeroTimeOffset == WrapLong(-(startNanos as int))
      ensures nanoToCurrentTimeOffset == WrapLong(WrapLong(startMillis * NANOSECONDS_PER_MILLISECOND) + WrapLong(-(startNanos as int)))
      ensures lastFuzzyTime == MIN_LONG
      ensures realmBuiltinObject.None? && globalProperties == map[]
      ensures javaPackageToPrimitiveFunction.None? && templateRegistry.None?
      ensures regexResult.None? && consoleUtil.None?
      ensures fresh(errorConstructors)
      ensures ErrorConstructorsFilled(createErrorConstructor)
    {
      this.timerResolution := timerResolution;
      this.regexpStaticResult := regexpStaticResult;
      var zero := WrapLong(-(startNanos as int));
      nanoToZeroTimeOffset := zero;
      nanoToCurrentTimeOffset := WrapLong(WrapLong(startMillis * NANOSECONDS_PER_MILLISECOND) + zero);
      lastFuzzyTime := MIN_LONG;
      realmBuiltinObject := None;
      globalProperties := map[];
      javaPackageToPrimitiveFunction := None;
      templateRegistry := None;
      regexResult := None;
      consoleUtil := None;
      errorConstructors := new Value[|ERROR_TYPES|](_ => Undefined);
      new;
      InitializeErrorConstructors(createErrorConstructor);
    }

    /** initializeErrorConstructors: one constructor per error type, stored at its ordinal. */
    method InitializeErrorConstructors(createErrorConstructor: ErrorType -> Value)
      requires errorConstructors.Length == |ERROR_TYPES|
      modifies errorConstructors
      ensures ErrorConstructorsFilled(createErrorConstructor)
    {
      OrdinalsAreSlots();
      for i := 0 to |ERROR_TYPES|
        invariant forall j :: 0 <= j < i ==> errorConstructors[j] == createErrorConstructor(ERROR_TYPES[j])
      {
        var errorType := ERROR_TYPES[i];
        errorConstructors[Ordinal(errorType)] := createErrorConstructor(errorType);
      }
      forall t
        ensures errorConstructors[Ordinal(t)] == createErrorConstructor(t)
      {
        assert ERROR_TYPES[Ordinal(t)] == t;
      }
    }

    /** getErrorConstructor: the slot of the type's ordinal. */
    function GetErrorConstructor(t: ErrorType): Value
      requires errorConstructors.Length == |ERROR_TYPES|
      reads errorConstructors
    {
      errorConstructors[Ordinal(t)]
    }

    /** Once the table is filled, getErrorConstructor answers each type with the constructor made for that type, and distinct types with distinct slots. */
    lemma GetErrorConstructorIsPerType(createErrorConstructor: ErrorType -> Value, t: ErrorType, u: ErrorType)
      requires ErrorConstructorsFilled(createErrorConstructor)
      ensures GetErrorConstructor(t) == createErrorConstructor(t)
      ensures t != u ==> Ordinal(t) != Ordinal(u)
    {
    }

    /** nanoTime(offset): the host time plus `offset`, reduced to the timer resolution or fuzzed. */
    method NanoTime(offset: Long, systemNanos: Long, randomDraw: int) returns (r: Long)
      requires 0 <= randomDraw < NANOSECONDS_PER_MILLISECOND
      modifies this
      ensures var ns := WrapLong(systemNanos + offset);
              && (timerResolution > 0 ==>
                    r == TruncateTo(ns, timerResolution) && lastFuzzyTime == old(lastFuzzyTime))
              && (timerResolution <= 0 ==>
                    r == Max(TruncateTo(ns, Fuzz(randomDraw)), old(lastFuzzyTime)) && lastFuzzyTime == r)
      ensures timerResolution <= 0 ==> r >= old(lastFuzzyTime)
      ensures lastFuzzyTime >= old(lastFuzzyTime)
      ensures realmBuiltinObject == old(realmBuiltinObject) && globalProperties == old(globalProperties)
      ensures javaPackageToPrimitiveFunction == old(javaPackageToPrimitiveFunction)
      ensures templateRegistry == old(templateRegistry) && regexResult == old(regexResult)
      ensures consoleUtil == old(consoleUtil)
    {
      var ns: Long := WrapLong(systemNanos + offset);
      var resolution := timerResolution;
      if resolution > 0 {
        QuantizeIsTruncation(ns, resolution);
        r := TruncDiv(ns, resolution) * resolution;
      } else {
        var fuzz := randomDraw + 1;
        TruncDivRem(ns, fuzz);
        ns := ns - TruncRem(ns, fuzz);
        var last := lastFuzzyTime;
        if ns > last {
          lastFuzzyTime := ns;
          r := ns;
        } else {
          r := last;
        }
      }
    }

    /** nanoTime(): nanoTime with the offset that makes the realm's start time zero. */
    method NanoTimeFromStart(systemNanos: Long, randomDraw: int) returns (r: Long)
      requires 0 <= randomDraw < NANOSECONDS_PER_MILLISECOND
      modifies this
      ensures var ns := WrapLong(systemNanos + nanoToZeroTimeOffset);
              && (timerResolution > 0 ==>
                    r == TruncateTo(ns, timerResolution) && lastFuzzyTime == old(lastFuzzyTime))
              && (timerResolution <= 0 ==>
                    r == Max(TruncateTo(ns, Fuzz(randomDraw)), old(lastFuzzyTime)) && lastFuzzyTime == r)
      ensures lastFuzzyTime >= old(lastFuzzyTime)
      ensures realmBuiltinObject == old(realmBuiltinObject) && globalProperties == old(globalProperties)
      ensures javaPackageToPrimitiveFunction == old(javaPackageToPrimitiveFunction)
      ensures templateRegistry == old(templateRegistry) && regexResult == old(regexResult)
      ensures consoleUtil == old(consoleUtil)
    {
      r := NanoTime(nanoToZeroTimeOffset, systemNanos, randomDraw);
    }

    /** currentTimeMillis: nanoTime with the wall-clock offset, in whole milliseconds truncated toward zero. */
    method CurrentTimeMillis(systemNanos: Long, randomDraw: int) returns (r: Long)
      requires 0 <= randomDraw < NANOSECONDS_PER_MILLISECOND
      modifies this
      ensures var ns := WrapLong(systemNanos + nanoToCurrentTimeOffset);
              var reading := if timerResolution > 0 then TruncateTo(ns, timerResolution)
                             else Max(TruncateTo(ns, Fuzz(randomDraw)), old(lastFuzzyTime));
              && r == TruncDiv(reading, NANOSECONDS_PER_MILLISECOND)
              && lastFuzzyTime == (if timerResolution > 0 then old(lastFuzzyTime) else reading)
      ensures lastFuzzyTime >= old(lastFuzzyTime)
      ensures realmBuiltinObject == old(realmBuiltinObject) && globalProperties == old(globalProperties)
      ensures javaPackageToPrimitiveFunction == old(javaPackageToPrimitiveFunction)
      ensures templateRegistry == old(templateRegistry) && regexResult == old(regexResult)
      ensures consoleUtil == old(consoleUtil)
    {
      var ns := NanoTime(nanoToCurrentTimeOffset, systemNanos, randomDraw);
      TruncDivRem(ns, NANOSECONDS_PER_MILLISECOND);
      r := TruncDiv(ns, NANOSECONDS_PER_MILLISECOND);
    }

    /** Two readings of the fuzzy clock, one after the other, never go backwards. */
    method FuzzyClockIsMonotone(offset1: Long, nanos1: Long, draw1: int, offset2: Long, nanos2: Long, draw2: int)
      returns (r1: Long, r2: Long)
      requires timerResolution <= 0
      requires 0 <= draw1 < NANOSECONDS_PER_MILLISECOND && 0 <= draw2 < NANOSECONDS_PER_MILLISECOND
      modifies this
      ensures r1 <= r2
    {
      r1 := NanoTime(offset1, nanos1, draw1);
      r2 := NanoTime(offset2, nanos2, draw2);
    }

    /** getRealmBuiltinObject. */
    function GetRealmBuiltinObject(): Option<Value>
      reads this
    {
      realmBuiltinObject
    }

    /** setRealmBuiltinObject: the first non-null object is kept and published as the global "Realm"; every other call changes nothing. */
    method SetRealmBuiltinObject(obj: Option<Value>)
      modifies this
      ensures old(realmBuiltinObject).None? && obj.Some? ==>
                realmBuiltinObject == obj && globalProperties == old(globalProperties)["Realm" := obj.value]
      ensures old(realmBuiltinObject).Some? || obj.None? ==> unchanged(this)
      ensures old(realmBuiltinObject).Some? ==> realmBuiltinObject == old(realmBuiltinObject)
      ensures lastFuzzyTime == old(lastFuzzyTime)
      ensures javaPackageToPrimitiveFunction == old(javaPackageToPrimitiveFunction)
      ensures templateRegistry == old(templateRegistry) && regexResult == old(regexResult)
      ensures consoleUtil == old(consoleUtil)
    {
      if realmBuiltinObject.None? && obj.Some? {
        realmBuiltinObject := obj;
        globalProperties := globalProperties["Realm" := obj.value];
      }
    }

    /** getJavaPackageToPrimitiveFunction: made on first use from `created`, the same value afterwards. */
    method GetJavaPackageToPrimitiveFunction(created: Value) returns (f: Value)
      modifies this
      ensures old(javaPackageToPrimitiveFunction).Some? ==>
                f == old(javaPackageToPrimitiveFunction).value && unchanged(this)
      ensures old(javaPackageToPrimitiveFunction).None? ==>
                f == created && javaPackageToPrimitiveFunction == Some(created)
      ensures realmBuiltinObject == old(realmBuiltinObject) && globalProperties == old(globalProperties)
      ensures templateRegistry == old(templateRegistry) && regexResult == old(regexResult)
      ensures consoleUtil == old(consoleUtil) && lastFuzzyTime == old(lastFuzzyTime)
    {
      if javaPackageToPrimitiveFunction.None? {
        javaPackageToPrimitiveFunction := Some(created);
      }
      f := javaPackageToPrimitiveFunction.value;
    }

    /** getTemplateRegistry: an empty registry on first use, the same registry afterwards. */
    method GetTemplateRegistry() returns (registry: TemplateRegistry)
      modifies this
      ensures old(templateRegistry).Some? ==> registry == old(templateRegistry).value && unchanged(this)
      ensures old(templateRegistry).None? ==>
                fresh(registry) && registry.entries == map[] && templateRegistry == Some(registry)
      ensures realmBuiltinObject == old(realmBuiltinObject) && globalProperties == old(globalProperties)
      ensures javaPackageToPrimitiveFunction == old(javaPackageToPrimitiveFunction)
      ensures regexResult == old(regexResult)
      ensures consoleUtil == old(consoleUtil) && lastFuzzyTime == old(lastFuzzyTime)
    {
      if templateRegistry.None? {
        CreateTemplateRegistry();
      }
      registry := templateRegistry.value;
    }

    /** createTemplateRegistry: creates the registry unless one exists. */
    method CreateTemplateRegistry()
      modifies this
      ensures templateRegistry.Some?
      ensures old(templateRegistry).Some? ==> unchanged(this)
      ensures old(templateRegistry).None? ==> fresh(templateRegistry.value) && templateRegistry.value.entries == map[]
      ensures realmBuiltinObject == old(realmBuiltinObject) && globalProperties == old(globalProperties)
      ensures javaPackageToPrimitiveFunction == old(javaPackageToPrimitiveFunction)
      ensures regexResult == old(regexResult)
      ensures consoleUtil == old(consoleUtil) && lastFuzzyTime == old(lastFuzzyTime)
    {
      if templateRegistry.None? {
        var registry := new TemplateRegistry();
        templateRegistry := Some(registry);
      }
    }

    /** getRegexResult: the regex engine's empty result (`emptyResult`) on first use, the stored result afterwards. */
    method GetRegexResult(emptyResult: Value) returns (result: Value)
      requires regexpStaticResult
      modifies this
      ensures old(regexResult).Some? ==> result == old(regexResult).value && unchanged(this)
      ensures old(regexResult).None? ==> result == emptyResult && regexResult == Some(emptyResult)
      ensures realmBuiltinObject == old(realmBuiltinObject) && globalProperties == old(globalProperties)
      ensures javaPackageToPrimitiveFunction == old(javaPackageToPrimitiveFunction)
      ensures templateRegistry == old(templateRegistry)
      ensures consoleUtil == old(consoleUtil) && lastFuzzyTime == old(lastFuzzyTime)
    {
      if regexResult.None? {
        regexResult := Some(emptyResult);
      }
      result := regexResult.value;
    }

    /** setRegexResult: replaces the stored result. */
    method SetRegexResult(result: Value)
      requires regexpStaticResult
      modifies this
      ensures regexResult == Some(result)
      ensures realmBuiltinObject == old(realmBuiltinObject) && globalProperties == old(globalProperties)
      ensures javaPackageToPrimitiveFunction == old(javaPackageToPrimitiveFunction)
      ensures templateRegistry == old(templateRegistry)
      ensures consoleUtil == old(consoleUtil) && lastFuzzyTime == old(lastFuzzyTime)
    {
      regexResult := Some(result);
    }

    /** getConsoleUtil: a new console helper on first use, the same one afterwards. */
    method GetConsoleUtil() returns (util: ConsoleUtil)
      modifies this
      ensures old(consoleUtil).Some? ==> util == old(consoleUtil).value && unchanged(this)
      ensures old(consoleUtil).None? ==> fresh(util) && consoleUtil == Some(util)
      ensures realmBuiltinObject == old(realmBuiltinObject) && globalProperties == old(globalProperties)
      ensures javaPackageToPrimitiveFunction == old(javaPackageToPrimitiveFunction)
      ensures templateRegistry == old(templateRegistry) && regexResult == old(regexResult)
      ensures lastFuzzyTime == old(lastFuzzyTime)
    {
      if consoleUtil.None? {
        var u := new ConsoleUtil();
        consoleUtil := Some(u);
      }
      util := consoleUtil.value;
    }
  }
}
