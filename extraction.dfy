/** The read paths of ObjectResultSet as functions of its collaborators: the
    abstract extraction getObjectValue(int, Class) that a concrete result set
    implements, the three coercions of SPIConnection, and the parts of
    Number.xxxValue() that are host-library arithmetic. Each function gives
    what one getter returns (or throws) for a column of the current row. */
module Extraction {
  import opened JdbcValues

  /** SPIConnection.basicCoersion, basicNumericCoersion and
      basicCalendricalCoersion. Nothing is known of them beyond their types:
      each returns a value (a Number, or null, for the numeric one) or throws. */
  datatype Coercions = Coercions(
    basic: (JavaClass, Value) -> Result<Value>,
    numeric: (Primitive, Value) -> Result<Option<Number>>,
    calendrical: (JavaClass, Value, Calendar) -> Result<Value>)

  /** The conversions of Number.byteValue() ... doubleValue() that involve
      floating point or BigDecimal arithmetic, left uninterpreted. */
  datatype NumberConversions = NumberConversions(
    byteValue: Number -> int8,
    shortValue: Number -> int16,
    intValue: Number -> int32,
    longValue: Number -> int64,
    floatValue: Number -> bv32,
    doubleValue: Number -> bv64)

  /** Everything a result set reads through: `source(col, type)` is
      getObjectValue(col, type), with `None` for a null Class; `classes` is
      the JVM's class hierarchy, which `isInstance` and casts consult. */
  datatype Env = Env(
    source: (int, Option<JavaClass>) -> Result<Value>,
    coercions: Coercions,
    numbers: NumberConversions,
    classes: Hierarchy)

  const ExplicitMapFeature := "Obtaining values using explicit Map"

  // ---------------------------------------------------------------------
  // The extraction point and its two non-abstract overloads

  /** getObjectValue(int): the abstract extraction with a null requested class. */
  function ObjectValue(env: Env, col: int): (r: Result<Value>)
    ensures r == env.source(col, None)
  {
    env.source(col, None)
  }

  /** getObjectValue(int, Map): a null map falls back on getObjectValue(int);
      any other map is refused before anything is extracted. */
  function ObjectValueWithMap(env: Env, col: int, typeMap: Option<TypeMap>): (r: Result<Value>)
    ensures typeMap.None? ==> r == ObjectValue(env, col) && r == env.source(col, None)
    ensures typeMap.Some? ==> r == Err(Unsupported(ExplicitMapFeature))
  {
    if typeMap.None? then ObjectValue(env, col) else Err(Unsupported(ExplicitMapFeature))
  }

  /** The instance check of getObject(int, Class): null or an instance of
      `t` passes unchanged, anything else is refused naming both classes. */
  function CheckInstance(h: Hierarchy, t: JavaClass, v: Value): (r: Result<Value>)
    ensures r.Ok? <==> OfType(h, t, v)
    ensures r.Ok? ==> r.value == v
    ensures r.Err? ==> r.error == CannotConvert(ClassName(ClassOf(v)), ClassName(t))
    ensures r.Err? ==> Message(r.error) == "Cannot convert " + ClassName(ClassOf(v)) + " to " + ClassName(t)
  {
    if v.Null? || IsInstance(h, t, v) then Ok(v)
    else Err(CannotConvert(ClassName(ClassOf(v)), ClassName(t)))
  }

  /** What getObject(col, t) returns: the value extracted with `t` as the
      requested class, provided it is null or an instance of `t`. */
  function StrictObjectOf(env: Env, col: int, t: JavaClass): (r: Result<Value>)
    ensures r.Ok? ==> OfType(env.classes, t, r.value) && r == env.source(col, Some(t))
    ensures env.source(col, Some(t)).Err? ==> r == env.source(col, Some(t))
    ensures env.source(col, Some(t)).Ok? && OfType(env.classes, t, env.source(col, Some(t)).value) ==> r.Ok?
    ensures env.source(col, Some(t)).Ok? && !OfType(env.classes, t, env.source(col, Some(t)).value) ==>
              r.Err? && r.error.CannotConvert? && r.error.requested == ClassName(t)
  {
    var v :- env.source(col, Some(t));
    CheckInstance(env.classes, t, v)
  }

  /** Two classes of the same name from different loaders are different
      classes: unless the hierarchy relates them, an instance of one is
      refused for the other, with a message naming the same class twice. */
  lemma SameNameOtherLoader(h: Hierarchy, name: UnlistedName, requested: nat, actual: nat, id: nat)
    requires !h.assignable(Named(name, actual), Named(name, requested))
    ensures CheckInstance(h, Named(name, requested), Other(name, actual, id)) == Err(CannotConvert(name, name))
    ensures Message(CheckInstance(h, Named(name, requested), Other(name, actual, id)).error)
              == "Cannot convert " + name + " to " + name
  {
  }

  /** Asking for Object never refuses: getObject(col, Object.class) returns
      whatever was extracted. */
  lemma ObjectIsNeverRefused(env: Env, col: int)
    ensures StrictObjectOf(env, col, ObjectClass) == env.source(col, Some(ObjectClass))
  {
  }

  /** A value that passes the check for a class passes it for every
      supertype of that class as well. */
  lemma CheckInstanceUpward(h: Hierarchy, sub: JavaClass, sup: JavaClass, v: Value)
    requires h.assignable(sub, sup)
    requires CheckInstance(h, sub, v).Ok?
    ensures CheckInstance(h, sup, v) == Ok(v)
  {
  }

  // ---------------------------------------------------------------------
  // getValue, getValue with a Calendar, getNumber

  /** getValue(col, cls): the coercion applied to what getObject(col) returned. */
  function ValueOf(env: Env, col: int, cls: JavaClass): (r: Result<Value>)
    ensures ObjectValue(env, col).Err? ==> r == ObjectValue(env, col)
    ensures ObjectValue(env, col).Ok? ==> r == env.coercions.basic(cls, ObjectValue(env, col).value)
  {
    var v :- ObjectValue(env, col);
    env.coercions.basic(cls, v)
  }

  /** getValue(col, cls, cal): the calendrical coercion of what getObject(col) returned. */
  function CalendricalValueOf(env: Env, col: int, cls: JavaClass, cal: Calendar): (r: Result<Value>)
    ensures ObjectValue(env, col).Err? ==> r == ObjectValue(env, col)
    ensures ObjectValue(env, col).Ok? ==> r == env.coercions.calendrical(cls, ObjectValue(env, col).value, cal)
  {
    var v :- ObjectValue(env, col);
    env.coercions.calendrical(cls, v, cal)
  }

  /** getNumber(col, p): the numeric coercion of the extracted value. */
  function NumberOf(env: Env, col: int, p: Primitive): (r: Result<Option<Number>>)
    ensures ObjectValue(env, col).Err? ==> r == Err(ObjectValue(env, col).error)
    ensures ObjectValue(env, col).Ok? ==> r == env.coercions.numeric(p, ObjectValue(env, col).value)
  {
    var v :- ObjectValue(env, col);
    env.coercions.numeric(p, v)
  }

  // ---------------------------------------------------------------------
  // The reference-typed getters

  /** The `(T)` cast every reference-typed getter puts on what getValue
      returned: it lets through null and instances of `t` and throws
      ClassCastException for anything else. */
  function CastTo(h: Hierarchy, t: JavaClass, coerced: Result<Value>): (r: Result<Value>)
    ensures r.Ok? ==> OfType(h, t, r.value) && r == coerced
    ensures coerced.Ok? && OfType(h, t, coerced.value) ==> r == coerced
    ensures coerced.Err? ==> r == coerced
    ensures coerced.Ok? && !OfType(h, t, coerced.value) ==>
              r == Err(ClassCast(ClassName(ClassOf(coerced.value)), ClassName(t)))
  {
    var v :- coerced;
    if OfType(h, t, v) then Ok(v) else Err(ClassCast(ClassName(ClassOf(v)), ClassName(t)))
  }

  /** getArray, getBigDecimal, getBytes, getDate, getRef, getString, getTime,
      getTimestamp, getURL: getValue with the getter's class, cast to it. */
  function TypedOf(env: Env, col: int, t: JavaClass): (r: Result<Value>)
    ensures r.Ok? ==> OfType(env.classes, t, r.value)
    ensures r.Ok? ==> r == ValueOf(env, col, t)
    ensures ValueOf(env, col, t).Ok? && OfType(env.classes, t, ValueOf(env, col, t).value) ==> r.Ok?
  {
    CastTo(env.classes, t, ValueOf(env, col, t))
  }

  /** getDate, getTime, getTimestamp with a Calendar. */
  function CalendricalTypedOf(env: Env, col: int, t: JavaClass, cal: Calendar): (r: Result<Value>)
    ensures r.Ok? ==> OfType(env.classes, t, r.value)
    ensures r.Ok? ==> r == CalendricalValueOf(env, col, t, cal)
    ensures CalendricalValueOf(env, col, t, cal).Ok? && OfType(env.classes, t, CalendricalValueOf(env, col, t, cal).value) ==> r.Ok?
  {
    CastTo(env.classes, t, CalendricalValueOf(env, col, t, cal))
  }

  /** getBoolean: a null Boolean reads as false. */
  function BooleanOf(env: Env, col: int): (r: Result<bool>)
    ensures r.Err? <==> TypedOf(env, col, BooleanClass).Err?
    ensures r == Ok(true) <==> TypedOf(env, col, BooleanClass) == Ok(Boolean(true))
    ensures TypedOf(env, col, BooleanClass) == Ok(Null) ==> r == Ok(false)
  {
    var b :- TypedOf(env, col, BooleanClass);
    Ok(if b.Null? then false else b.truth)
  }

  // ---------------------------------------------------------------------
  // The primitive numeric getters

  /** Number.byteValue(): an integral box keeps its low 8 bits. */
  function ByteValue(conv: NumberConversions, n: Number): (r: int8)
    ensures IsIntegral(n) ==> (Whole(n) - r as int) % 0x100 == 0
  {
    if IsIntegral(n) then ToInt8(Whole(n)) else conv.byteValue(n)
  }

  /** Number.shortValue(): an integral box keeps its low 16 bits. */
  function ShortValue(conv: NumberConversions, n: Number): (r: int16)
    ensures IsIntegral(n) ==> (Whole(n) - r as int) % 0x1_0000 == 0
  {
    if IsIntegral(n) then ToInt16(Whole(n)) else conv.shortValue(n)
  }

  /** Number.intValue(): an integral box keeps its low 32 bits. */
  function IntValue(conv: NumberConversions, n: Number): (r: int32)
    ensures IsIntegral(n) ==> (Whole(n) - r as int) % 0x1_0000_0000 == 0
  {
    if IsIntegral(n) then ToInt32(Whole(n)) else conv.intValue(n)
  }

  /** Number.longValue(): an integral box keeps its low 64 bits. */
  function LongValue(conv: NumberConversions, n: Number): (r: int64)
    ensures IsIntegral(n) ==> (Whole(n) - r as int) % 0x1_0000_0000_0000_0000 == 0
  {
    if IsIntegral(n) then ToInt64(Whole(n)) else conv.longValue(n)
  }

  /** getByte: a null Number reads as 0. */
  function ByteOf(env: Env, col: int): (r: Result<int8>)
    ensures r.Err? <==> NumberOf(env, col, ByteType).Err?
    ensures NumberOf(env, col, ByteType) == Ok(None) ==> r == Ok(0)
    ensures NumberOf(env, col, ByteType).Ok? && NumberOf(env, col, ByteType).value.Some? ==>
              r == Ok(ByteValue(env.numbers, NumberOf(env, col, ByteType).value.value))
  {
    var n :- NumberOf(env, col, ByteType);
    Ok(if n.None? then 0 else ByteValue(env.numbers, n.value))
  }

  /** getShort: a null Number reads as 0. */
  function ShortOf(env: Env, col: int): (r: Result<int16>)
    ensures r.Err? <==> NumberOf(env, col, ShortType).Err?
    ensures NumberOf(env, col, ShortType) == Ok(None) ==> r == Ok(0)
    ensures NumberOf(env, col, ShortType).Ok? && NumberOf(env, col, ShortType).value.Some? ==>
              r == Ok(ShortValue(env.numbers, NumberOf(env, col, ShortType).value.value))
  {
    var n :- NumberOf(env, col, ShortType);
    Ok(if n.None? then 0 else ShortValue(env.numbers, n.value))
  }

  /** getInt: a null Number reads as 0. */
  function IntOf(env: Env, col: int): (r: Result<int32>)
    ensures r.Err? <==> NumberOf(env, col, IntType).Err?
    ensures NumberOf(env, col, IntType) == Ok(None) ==> r == Ok(0)
    ensures NumberOf(env, col, IntType).Ok? && NumberOf(env, col, IntType).value.Some? ==>
              r == Ok(IntValue(env.numbers, NumberOf(env, col, IntType).value.value))
  {
    var n :- NumberOf(env, col, IntType);
    Ok(if n.None? then 0 else IntValue(env.numbers, n.value))
  }

  /** getLong: a null Number reads as 0. */
  function LongOf(env: Env, col: int): (r: Result<int64>)
    ensures r.Err? <==> NumberOf(env, col, LongType).Err?
    ensures NumberOf(env, col, LongType) == Ok(None) ==> r == Ok(0)
    ensures NumberOf(env, col, LongType).Ok? && NumberOf(env, col, LongType).value.Some? ==>
              r == Ok(LongValue(env.numbers, NumberOf(env, col, LongType).value.value))
  {
    var n :- NumberOf(env, col, LongType);
    Ok(if n.None? then 0 else LongValue(env.numbers, n.value))
  }

  /** getFloat: a null Number reads as +0.0f (all bits clear); a Float box
      gives its own bits back. */
  function FloatOf(env: Env, col: int): (r: Result<bv32>)
    ensures r.Err? <==> NumberOf(env, col, FloatType).Err?
    ensures NumberOf(env, col, FloatType) == Ok(None) ==> r == Ok(0)
    ensures forall bits :: NumberOf(env, col, FloatType) == Ok(Some(FloatBox(bits))) ==> r == Ok(bits)
  {
    var n :- NumberOf(env, col, FloatType);
    Ok(if n.None? then 0
       else if n.value.FloatBox? then n.value.fbits
       else env.numbers.floatValue(n.value))
  }

  /** getDouble: a null Number reads as +0.0 (all bits clear); a Double box
      gives its own bits back. */
  function DoubleOf(env: Env, col: int): (r: Result<bv64>)
    ensures r.Err? <==> NumberOf(env, col, DoubleType).Err?
    ensures NumberOf(env, col, DoubleType) == Ok(None) ==> r == Ok(0)
    ensures forall bits :: NumberOf(env, col, DoubleType) == Ok(Some(DoubleBox(bits))) ==> r == Ok(bits)
  {
    var n :- NumberOf(env, col, DoubleType);
    Ok(if n.None? then 0
       else if n.value.DoubleBox? then n.value.dbits
       else env.numbers.doubleValue(n.value))
  }

  // ---------------------------------------------------------------------
  // Large objects and their streams

  /** getBlob: no Blob for a null byte array, otherwise a BlobValue over
      exactly the bytes getBytes returned. */
  function BlobOf(env: Env, col: int): (r: Result<Option<BlobValue>>)
    ensures r.Err? <==> TypedOf(env, col, ByteArrayClass).Err?
    ensures r == Ok(None) <==> TypedOf(env, col, ByteArrayClass) == Ok(Null)
    ensures r.Ok? && r.value.Some? ==>
              r.value.value.BlobOfBytes? && TypedOf(env, col, ByteArrayClass) == Ok(Bytes(r.value.value.bytes))
  {
    var bytes :- TypedOf(env, col, ByteArrayClass);
    Ok(if bytes.Null? then None else Some(BlobOfBytes(bytes.bytes)))
  }

  /** getClob: no Clob for a null string, otherwise a ClobValue over exactly
      the string getString returned. */
  function ClobOf(env: Env, col: int): (r: Result<Option<ClobValue>>)
    ensures r.Err? <==> TypedOf(env, col, StringClass).Err?
    ensures r == Ok(None) <==> TypedOf(env, col, StringClass) == Ok(Null)
    ensures r.Ok? && r.value.Some? ==>
              r.value.value.ClobOfString? && TypedOf(env, col, StringClass) == Ok(Str(r.value.value.text))
  {
    var str :- TypedOf(env, col, StringClass);
    Ok(if str.Null? then None else Some(ClobOfString(str.text)))
  }

  /** getAsciiStream: the ASCII stream of getClob's Clob, none without one. */
  function AsciiStreamOf(env: Env, col: int): (r: Result<Option<StreamHandle>>)
    ensures r.Err? <==> ClobOf(env, col).Err?
    ensures r == Ok(None) <==> ClobOf(env, col) == Ok(None)
    ensures r.Ok? && r.value.Some? ==>
              r.value.value.AsciiStream? && ClobOf(env, col) == Ok(Some(r.value.value.ofClob))
  {
    var c :- ClobOf(env, col);
    Ok(if c.None? then None else Some(AsciiStream(c.value)))
  }

  /** getCharacterStream: the Reader of getClob's Clob, none without one. */
  function CharacterStreamOf(env: Env, col: int): (r: Result<Option<StreamHandle>>)
    ensures r.Err? <==> ClobOf(env, col).Err?
    ensures r == Ok(None) <==> ClobOf(env, col) == Ok(None)
    ensures r.Ok? && r.value.Some? ==>
              r.value.value.CharacterStream? && ClobOf(env, col) == Ok(Some(r.value.value.ofClob))
  {
    var c :- ClobOf(env, col);
    Ok(if c.None? then None else Some(CharacterStream(c.value)))
  }

  /** getBinaryStream: the binary stream of getBlob's Blob, none without one. */
  function BinaryStreamOf(env: Env, col: int): (r: Result<Option<StreamHandle>>)
    ensures r.Err? <==> BlobOf(env, col).Err?
    ensures r == Ok(None) <==> BlobOf(env, col) == Ok(None)
    ensures r.Ok? && r.value.Some? ==>
              r.value.value.BinaryStream? && BlobOf(env, col) == Ok(Some(r.value.value.ofBlob))
  {
    var b :- BlobOf(env, col);
    Ok(if b.None? then None else Some(BinaryStream(b.value)))
  }

  // ---------------------------------------------------------------------
  // Null columns

  /** The coercions map null to null, which SPIConnection is expected to do
      but which nothing in this layer enforces. */
  ghost predicate NullPreserving(c: Coercions) {
    && (forall t :: c.basic(t, Null) == Ok(Null))
    && (forall p :: c.numeric(p, Null) == Ok(None))
    && (forall t, cal :: c.calendrical(t, Null, cal) == Ok(Null))
  }

  /** On a null column, with coercions that keep null, every getter returns
      its type's null or zero: false, 0, +0.0, no Blob, no Clob, no stream. */
  lemma NullColumnReadsAsDefaults(env: Env, col: int)
    requires NullPreserving(env.coercions)
    requires ObjectValue(env, col) == Ok(Null)
    ensures BooleanOf(env, col) == Ok(false)
    ensures ByteOf(env, col) == Ok(0) && ShortOf(env, col) == Ok(0)
    ensures IntOf(env, col) == Ok(0) && LongOf(env, col) == Ok(0)
    ensures FloatOf(env, col) == Ok(0) && DoubleOf(env, col) == Ok(0)
    ensures forall t :: TypedOf(env, col, t) == Ok(Null)
    ensures forall t, cal :: CalendricalTypedOf(env, col, t, cal) == Ok(Null)
    ensures BlobOf(env, col) == Ok(None) && ClobOf(env, col) == Ok(None)
    ensures AsciiStreamOf(env, col) == Ok(None) && CharacterStreamOf(env, col) == Ok(None)
    ensures BinaryStreamOf(env, col) == Ok(None)
    ensures ObjectValueWithMap(env, col, None) == Ok(Null)
  {
  }
}
