/**
 * Ordinary objects in the default inline layout: four reference slots and three
 * `long` slots that the shape's locations point into, with an overflow area for
 * properties that do not fit.
 */
module OrdinaryObjects {
  import opened JSValues

  /** Inline capacity of the default layout. */
  const OBJECT_SLOTS: nat := 4
  const PRIMITIVE_SLOTS: nat := 3

  /** The class name every ordinary object reports. */
  const CLASS_NAME: string := "Object"

  // ---------------------------------------------------------------------------
  // Decimal strings of integer indices (String.valueOf(long))

  function DigitChar(d: nat): (c: char)
    requires d < 10
    ensures '0' <= c <= '9'
  {
    "0123456789"[d]
  }

  function DigitValue(c: char): (d: nat)
    requires '0' <= c <= '9'
    ensures d < 10 && DigitChar(d) == c
  {
    (c as int - '0' as int) as nat
  }

  /** The shortest decimal digits of `n`. */
  function Digits(n: nat): (s: string)
    ensures |s| > 0
    ensures forall i :: 0 <= i < |s| ==> '0' <= s[i] <= '9'
  {
    if n < 10 then [DigitChar(n)] else Digits(n / 10) + [DigitChar(n % 10)]
  }

  /** String.valueOf(long): a minus sign for negative numbers, then the digits. */
  function DecimalString(n: int): string
  {
    if n < 0 then "-" + Digits(-n) else Digits(n)
  }

  predicate AllDigits(s: string)
  {
    forall i :: 0 <= i < |s| ==> '0' <= s[i] <= '9'
  }

  /** The number a non-empty run of decimal digits denotes. */
  function ParseDigits(s: string): nat
    requires |s| > 0 && AllDigits(s)
  {
    if |s| == 1 then DigitValue(s[0])
    else ParseDigits(s[..|s| - 1]) * 10 + DigitValue(s[|s| - 1])
  }

  /** Reads a decimal string back: an optional minus sign, then digits. */
  function ParseDecimal(s: string): Option<int>
  {
    if |s| > 1 && s[0] == '-' && AllDigits(s[1..]) then Some(-(ParseDigits(s[1..]) as int))
    else if |s| > 0 && AllDigits(s) then Some(ParseDigits(s))
    else None
  }

  lemma {:induction false} ParseDigitsOfDigits(n: nat)
    ensures ParseDigits(Digits(n)) == n
    decreases n
  {
    if n >= 10 {
      var s := Digits(n);
      assert s[..|s| - 1] == Digits(n / 10);
      ParseDigitsOfDigits(n / 10);
    }
  }

  /** Every decimal string reads back as the number it was made from. */
  lemma {:induction false} DecimalStringRoundTrip(n: int)
    ensures ParseDecimal(DecimalString(n)) == Some(n)
  {
    if n < 0 {
      assert DecimalString(n) == "-" + Digits(-n);
      NegativeRoundTrip(-n);
    } else {
      assert DecimalString(n) == Digits(n);
      NonNegativeRoundTrip(n);
    }
  }

  lemma {:induction false} NegativeRoundTrip(m: nat)
    requires m > 0
    ensures ParseDecimal("-" + Digits(m)) == Some(-(m as int))
  {
    var d := Digits(m);
    var s := "-" + d;
    assert s[0] == '-' && s[1..] == d && AllDigits(d);
    ParseDigitsOfDigits(m);
  }

  lemma {:induction false} NonNegativeRoundTrip(n: nat)
    ensures ParseDecimal(Digits(n)) == Some(n)
  {
    var d := Digits(n);
    assert AllDigits(d) && d[0] != '-';
    ParseDigitsOfDigits(n);
  }

  /** Distinct indices name distinct properties. */
  lemma DecimalStringInjective(a: int, b: int)
    requires DecimalString(a) == DecimalString(b)
    ensures a == b
  {
    DecimalStringRoundTrip(a);
    DecimalStringRoundTrip(b);
  }

  /** A shape stores distinct properties in distinct locations. */
  ghost predicate DistinctLocations(shape: Shape)
  {
    forall k1, k2 :: k1 in shape.layout && k2 in shape.layout && k1 != k2 ==> shape.layout[k1] != shape.layout[k2]
  }

  /**
   * JSOrdinaryObject.DefaultLayout: the inline fields o0..o3 as `objectSlots`
   * (None while never written), p0..p2 as `primitiveSlots`, and the overflow
   * area as `extension`. The shape is fixed at allocation.
   */
  class DefaultLayout {
    const shape: Shape
    var objectSlots: seq<Option<Value>>
    var primitiveSlots: seq<Long>
    var extension: map<nat, Value>

    ghost predicate Valid()
      reads this
    {
      |objectSlots| == OBJECT_SLOTS && |primitiveSlots| == PRIMITIVE_SLOTS
    }

    /** No property value has been stored yet. */
    ghost predicate Empty()
      reads this
    {
      && (forall i :: 0 <= i < |objectSlots| ==> objectSlots[i].None?)
      && (forall i :: 0 <= i < |primitiveSlots| ==> primitiveSlots[i] == 0)
      && extension == map[]
    }

    /** JSOrdinaryObject.create: a default-layout object carrying exactly `shape`, its slots unset. */
    constructor (shape: Shape)
      ensures Valid() && Empty()
      ensures this.shape == shape
    {
      this.shape := shape;
      objectSlots := [None, None, None, None];
      primitiveSlots := [0, 0, 0];
      extension := map[];
    }

    /** The value stored at a location, if the location holds one. */
    function Read(loc: Location): Option<Value>
      reads this
    {
      match loc
      case ObjectField(i) => if i < |objectSlots| then objectSlots[i] else None
      case PrimitiveField(i) => if i < |primitiveSlots| then Some(Int(primitiveSlots[i])) else None
      case ExtensionSlot(i) => if i in extension then Some(extension[i]) else None
    }

    /** The own value of `key`: read where the shape says the property lives. */
    function GetOwnValue(key: PropertyKey): (r: Option<Value>)
      reads this
      ensures key !in shape.layout ==> r.None?
    {
      if key in shape.layout then Read(shape.layout[key]) else None
    }

    /** getValue(long): the property named by the decimal string of `index`. */
    function GetIndexedValue(index: Long): (r: Option<Value>)
      reads this
      ensures r.Some? ==> StringKey(DecimalString(index)) in shape.layout
    {
      GetOwnValue(StringKey(DecimalString(index)))
    }

    /** hasOnlyShapeProperties: every property the object has is described by its shape. */
    predicate HasOnlyShapeProperties()
      reads this
      ensures HasOnlyShapeProperties()
      ensures forall k :: GetOwnValue(k).Some? ==> k in shape.layout
    {
      true
    }

    /** getClassName. */
    function ClassName(): (name: string)
      ensures name == CLASS_NAME
    {
      CLASS_NAME
    }

    /** The storage layer's in-place write of an existing property whose location can hold `v`. */
    method SetOwnValue(key: PropertyKey, v: Value) returns (ok: bool)
      requires Valid()
      modifies this
      ensures Valid()
      ensures ok <==> key in shape.layout && Fits(shape.layout[key], v)
      ensures ok ==> GetOwnValue(key) == Some(v)
      ensures !ok ==> unchanged(this)
      ensures ok && DistinctLocations(shape) ==>
                forall k :: k != key ==> GetOwnValue(k) == old(GetOwnValue(k))
    {
      if key !in shape.layout || !Fits(shape.layout[key], v) {
        return false;
      }
      ok := true;
      match shape.layout[key]
      case ObjectField(i) =>
        objectSlots := objectSlots[i := Some(v)];
      case PrimitiveField(i) =>
        primitiveSlots := primitiveSlots[i := v.n];
      case ExtensionSlot(i) =>
        extension := extension[i := v];
    }

    /** copyWithoutProperties: a new default-layout object with shape `s` and no values; the original is untouched. */
    method CopyWithoutProperties(s: Shape) returns (c: DefaultLayout)
      ensures fresh(c) && c.Valid() && c.Empty() && c.shape == s
      ensures unchanged(this)
    {
      c := new DefaultLayout(s);
    }
  }

  /** A location can take `v`: an inline reference slot anything, a `long` slot a 64-bit integer. */
  predicate Fits(loc: Location, v: Value)
  {
    match loc
    case ObjectField(i) => i < OBJECT_SLOTS
    case PrimitiveField(i) => i < PRIMITIVE_SLOTS && v.Int? && MIN_LONG <= v.n <= MAX_LONG
    case ExtensionSlot(_) => true
  }

  /** The indexed read is the string-keyed read at the index's decimal string, and two different indices never read the same property. */
  lemma IndexedReadIsStringRead(o: DefaultLayout, i: Long, j: Long)
    requires i != j
    ensures o.GetIndexedValue(i) == o.GetOwnValue(StringKey(DecimalString(i)))
    ensures StringKey(DecimalString(i)) != StringKey(DecimalString(j))
  {
    if DecimalString(i) == DecimalString(j) {
      DecimalStringInjective(i, j);
    }
  }
}
