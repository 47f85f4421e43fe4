/** ObjectResultSet: the typed getters and updaters of a PL/Java result set,
    built on one abstract extraction, getObjectValue(int, Class). The class
    keeps the was-null flag and, in place of the row it updates, the log of
    updateObject calls it has made. */
module ObjectResultSets {
  import opened JdbcValues
  import opened Extraction
  import opened Protocol

  /** What getWarnings would return; warnings are not supported. */
  datatype SqlWarning = SqlWarning(message: string)

  /** What getMetaData would return; it is not supported. */
  datatype ResultSetMetaData = ResultSetMetaData(id: nat)

  class ObjectResultSet {
    /** m_wasNull */
    var wasNull: bool
    /** The updateObject(col, value) calls made on the current row, in order. */
    var updates: seq<(int, Value)>
    /** The concrete getObjectValue(int, Class) and the coercion service. */
    const env: Env

    ghost function Snapshot(): State
      reads this
    {
      State(wasNull, updates)
    }

    constructor (env: Env)
      ensures this.env == env
      ensures !wasNull && updates == []
    {
      this.env := env;
      wasNull := false;
      updates := [];
    }

    method WasNull() returns (b: bool)
      ensures b == wasNull
    {
      b := wasNull;
    }

    /** A no-op: warnings are not supported. */
    method ClearWarnings() returns (r: Result<()>)
      ensures r == Ok(())
    {
      r := Ok(());
    }

    method GetWarnings() returns (r: Result<Option<SqlWarning>>)
      ensures r == Ok(None)
    {
      r := Ok(None);
    }

    method GetMetaData() returns (r: Result<ResultSetMetaData>)
      ensures r == Err(Unsupported("ResultSet meta data is not yet implemented"))
    {
      r := Err(Unsupported("ResultSet meta data is not yet implemented"));
    }

    // -----------------------------------------------------------------
    // The four members that write the flag

    /** getObject(int): the extracted value, unchanged; the flag says
        whether it was null. */
    method GetObject(col: int) returns (r: Result<Value>)
      modifies this`wasNull
      ensures r == ObjectValue(env, col)
      ensures wasNull == FlagAfter(old(wasNull), r)
      ensures Snapshot() == Step(env, old(Snapshot()), Read(col, ViaGetObject))
    {
      var value :- ObjectValue(env, col);
      wasNull := value.Null?;
      r := Ok(value);
    }

    /** getObject(int, Map): as getObject(int) for a null map; any other map
        is refused before the flag is touched. */
    method GetObjectWithMap(col: int, typeMap: Option<TypeMap>) returns (r: Result<Value>)
      modifies this`wasNull
      ensures r == ObjectValueWithMap(env, col, typeMap)
      ensures wasNull == FlagAfter(old(wasNull), r)
      ensures typeMap.Some? ==> wasNull == old(wasNull)
      ensures Snapshot() == Step(env, old(Snapshot()), Read(col, ViaGetObjectWithMap(typeMap)))
    {
      var value :- ObjectValueWithMap(env, col, typeMap);
      wasNull := value.Null?;
      r := Ok(value);
    }

    /** getObject(int, Class): the value extracted for `t`, if it is null or
        an instance of `t`. The flag is set before the check, so a refused
        value still leaves it recorded. */
    method GetObjectAs(col: int, t: JavaClass) returns (r: Result<Value>)
      modifies this`wasNull
      ensures r == StrictObjectOf(env, col, t)
      ensures r.Ok? ==> OfType(env.classes, t, r.value)
      ensures wasNull == FlagAfter(old(wasNull), env.source(col, Some(t)))
      ensures Snapshot() == Step(env, old(Snapshot()), Read(col, ViaGetObjectAs(t)))
    {
      var value :- env.source(col, Some(t));
      wasNull := value.Null?;
      if wasNull || IsInstance(env.classes, t, value) {
        r := Ok(value);
      } else {
        r := Err(CannotConvert(ClassName(ClassOf(value)), ClassName(t)));
      }
    }

    /** getNumber: the flag records the extracted value, before the numeric
        coercion. */
    method GetNumber(col: int, p: Primitive) returns (r: Result<Option<Number>>)
      modifies this`wasNull
      ensures r == NumberOf(env, col, p)
      ensures wasNull == FlagAfter(old(wasNull), ObjectValue(env, col))
      ensures Snapshot() == Step(env, old(Snapshot()), Read(col, ViaGetNumber))
    {
      var value :- ObjectValue(env, col);
      wasNull := value.Null?;
      r := env.coercions.numeric(p, value);
    }

    // -----------------------------------------------------------------
    // getValue over getObject(int)

    method GetValue(col: int, cls: JavaClass) returns (r: Result<Value>)
      modifies this`wasNull
      ensures r == ValueOf(env, col, cls)
      ensures Snapshot() == Step(env, old(Snapshot()), Read(col, ViaGetObject))
    {
      var obj :- GetObject(col);
      r := env.coercions.basic(cls, obj);
    }

    method GetValueWithCalendar(col: int, cls: JavaClass, cal: Calendar) returns (r: Result<Value>)
      modifies this`wasNull
      ensures r == CalendricalValueOf(env, col, cls, cal)
      ensures Snapshot() == Step(env, old(Snapshot()), Read(col, ViaGetObject))
    {
      var obj :- GetObject(col);
      r := env.coercions.calendrical(cls, obj, cal);
    }

    /** The getters that return getValue cast to their class. */
    method GetTyped(col: int, t: JavaClass) returns (r: Result<Value>)
      modifies this`wasNull
      ensures r == TypedOf(env, col, t)
      ensures Snapshot() == Step(env, old(Snapshot()), Read(col, ViaGetObject))
    {
      var v :- GetValue(col, t);
      r := CastTo(env.classes, t, Ok(v));
    }

    method GetArray(col: int) returns (r: Result<Value>)
      modifies this`wasNull
      ensures r == TypedOf(env, col, ArrayClass)
      ensures Snapshot() == Step(env, old(Snapshot()), Read(col, ViaGetObject))
    {
      r := GetTyped(col, ArrayClass);
    }

    method GetBigDecimal(col: int) returns (r: Result<Value>)
      modifies this`wasNull
      ensures r == TypedOf(env, col, BigDecimalClass)
      ensures Snapshot() == Step(env, old(Snapshot()), Read(col, ViaGetObject))
    {
      r := GetTyped(col, BigDecimalClass);
    }

    method GetBytes(col: int) returns (r: Result<Value>)
      modifies this`wasNull
      ensures r == TypedOf(env, col, ByteArrayClass)
      ensures Snapshot() == Step(env, old(Snapshot()), Read(col, ViaGetObject))
    {
      r := GetTyped(col, ByteArrayClass);
    }

    method GetDate(col: int) returns (r: Result<Value>)
      modifies this`wasNull
      ensures r == TypedOf(env, col, DateClass)
      ensures Snapshot() == Step(env, old(Snapshot()), Read(col, ViaGetObject))
    {
      r := GetTyped(col, DateClass);
    }

    method GetRef(col: int) returns (r: Result<Value>)
      modifies this`wasNull
      ensures r == TypedOf(env, col, RefClass)
      ensures Snapshot() == Step(env, old(Snapshot()), Read(col, ViaGetObject))
    {
      r := GetTyped(col, RefClass);
    }

    method GetString(col: int) returns (r: Result<Value>)
      modifies this`wasNull
      ensures r == TypedOf(env, col, StringClass)
      ensures Snapshot() == Step(env, old(Snapshot()), Read(col, ViaGetObject))
    {
      r := GetTyped(col, StringClass);
    }

    method GetTime(col: int) returns (r: Result<Value>)
      modifies this`wasNull
      ensures r == TypedOf(env, col, TimeClass)
      ensures Snapshot() == Step(env, old(Snapshot()), Read(col, ViaGetObject))
    {
      r := GetTyped(col, TimeClass);
    }

    method GetTimestamp(col: int) returns (r: Result<Value>)
      modifies this`wasNull
      ensures r == TypedOf(env, col, TimestampClass)
      ensures Snapshot() == Step(env, old(Snapshot()), Read(col, ViaGetObject))
    {
      r := GetTyped(col, TimestampClass);
    }

    method GetURL(col: int) returns (r: Result<Value>)
      modifies this`wasNull
      ensures r == TypedOf(env, col, URLClass)
      ensures Snapshot() == Step(env, old(Snapshot()), Read(col, ViaGetObject))
    {
      r := GetTyped(col, URLClass);
    }

    /** The getters with a Calendar: the calendrical getValue cast to their class. */
    method GetTypedWithCalendar(col: int, t: JavaClass, cal: Calendar) returns (r: Result<Value>)
      modifies this`wasNull
      ensures r == CalendricalTypedOf(env, col, t, cal)
      ensures Snapshot() == Step(env, old(Snapshot()), Read(col, ViaGetObject))
    {
      var v :- GetValueWithCalendar(col, t, cal);
      r := CastTo(env.classes, t, Ok(v));
    }

    method GetDateWithCalendar(col: int, cal: Calendar) returns (r: Result<Value>)
      modifies this`wasNull
      ensures r == CalendricalTypedOf(env, col, DateClass, cal)
      ensures Snapshot() == Step(env, old(Snapshot()), Read(col, ViaGetObject))
    {
      r := GetTypedWithCalendar(col, DateClass, cal);
    }

    method GetTimeWithCalendar(col: int, cal: Calendar) returns (r: Result<Value>)
      modifies this`wasNull
      ensures r == CalendricalTypedOf(env, col, TimeClass, cal)
      ensures Snapshot() == Step(env, old(Snapshot()), Read(col, ViaGetObject))
    {
      r := GetTypedWithCalendar(col, TimeClass, cal);
    }

    method GetTimestampWithCalendar(col: int, cal: Calendar) returns (r: Result<Value>)
      modifies this`wasNull
      ensures r == CalendricalTypedOf(env, col, TimestampClass, cal)
      ensures Snapshot() == Step(env, old(Snapshot()), Read(col, ViaGetObject))
    {
      r := GetTypedWithCalendar(col, TimestampClass, cal);
    }

    method GetBoolean(col: int) returns (r: Result<bool>)
      modifies this`wasNull
      ensures r == BooleanOf(env, col)
      ensures Snapshot() == Step(env, old(Snapshot()), Read(col, ViaGetObject))
    {
      var b :- GetTyped(col, BooleanClass);
      r := Ok(if b.Null? then false else b.truth);
    }

    // -----------------------------------------------------------------
    // getNumber and the primitive numeric getters

    method GetByte(col: int) returns (r: Result<int8>)
      modifies this`wasNull
      ensures r == ByteOf(env, col)
      ensures Snapshot() == Step(env, old(Snapshot()), Read(col, ViaGetNumber))
    {
      var n :- GetNumber(col, ByteType);
      r := Ok(if n.None? then 0 else ByteValue(env.numbers, n.value));
    }

    method GetShort(col: int) returns (r: Result<int16>)
      modifies this`wasNull
      ensures r == ShortOf(env, col)
      ensures Snapshot() == Step(env, old(Snapshot()), Read(col, ViaGetNumber))
    {
      var n :- GetNumber(col, ShortType);
      r := Ok(if n.None? then 0 else ShortValue(env.numbers, n.value));
    }

    method GetInt(col: int) returns (r: Result<int32>)
      modifies this`wasNull
      ensures r == IntOf(env, col)
      ensures Snapshot() == Step(env, old(Snapshot()), Read(col, ViaGetNumber))
    {
      var n :- GetNumber(col, IntType);
      r := Ok(if n.None? then 0 else IntValue(env.numbers, n.value));
    }

    method GetLong(col: int) returns (r: Result<int64>)
      modifies this`wasNull
      ensures r == LongOf(env, col)
      ensures Snapshot() == Step(env, old(Snapshot()), Read(col, ViaGetNumber))
    {
      var n :- GetNumber(col, LongType);
      r := Ok(if n.None? then 0 else LongValue(env.numbers, n.value));
    }

    method GetFloat(col: int) returns (r: Result<bv32>)
      modifies this`wasNull
      ensures r == FloatOf(env, col)
      ensures Snapshot() == Step(env, old(Snapshot()), Read(col, ViaGetNumber))
    {
      var n :- GetNumber(col, FloatType);
      r := Ok(if n.None? then 0
              else if n.value.FloatBox? then n.value.fbits
              else env.numbers.floatValue(n.value));
    }

    method GetDouble(col: int) returns (r: Result<bv64>)
      modifies this`wasNull
      ensures r == DoubleOf(env, col)
      ensures Snapshot() == Step(env, old(Snapshot()), Read(col, ViaGetNumber))
    {
      var n :- GetNumber(col, DoubleType);
      r := Ok(if n.None? then 0
              else if n.value.DoubleBox? then n.value.dbits
              else env.numbers.doubleValue(n.value));
    }

    // -----------------------------------------------------------------
    // Large objects and streams

    method GetBlob(col: int) returns (r: Result<Option<BlobValue>>)
      modifies this`wasNull
      ensures r == BlobOf(env, col)
      ensures Snapshot() == Step(env, old(Snapshot()), Read(col, ViaGetObject))
    {
      var bytes :- GetBytes(col);
      r := Ok(if bytes.Null? then None else Some(BlobOfBytes(bytes.bytes)));
    }

    method GetClob(col: int) returns (r: Result<Option<ClobValue>>)
      modifies this`wasNull
      ensures r == ClobOf(env, col)
      ensures Snapshot() == Step(env, old(Snapshot()), Read(col, ViaGetObject))
    {
      var str :- GetString(col);
      r := Ok(if str.Null? then None else Some(ClobOfString(str.text)));
    }

    method GetAsciiStream(col: int) returns (r: Result<Option<StreamHandle>>)
      modifies this`wasNull
      ensures r == AsciiStreamOf(env, col)
      ensures Snapshot() == Step(env, old(Snapshot()), Read(col, ViaGetObject))
    {
      var c :- GetClob(col);
      r := Ok(if c.None? then None else Some(AsciiStream(c.value)));
    }

    method GetCharacterStream(col: int) returns (r: Result<Option<StreamHandle>>)
      modifies this`wasNull
      ensures r == CharacterStreamOf(env, col)
      ensures Snapshot() == Step(env, old(Snapshot()), Read(col, ViaGetObject))
    {
      var c :- GetClob(col);
      r := Ok(if c.None? then None else Some(CharacterStream(c.value)));
    }

    method GetBinaryStream(col: int) returns (r: Result<Option<StreamHandle>>)
      modifies this`wasNull
      ensures r == BinaryStreamOf(env, col)
      ensures Snapshot() == Step(env, old(Snapshot()), Read(col, ViaGetObject))
    {
      var b :- GetBlob(col);
      r := Ok(if b.None? then None else Some(BinaryStream(b.value)));
    }

    // -----------------------------------------------------------------
    // Refused operations

    method GetBigDecimalScaled(col: int, scale: int32) returns (r: Result<Value>)
      ensures r == Err(Unsupported("getBigDecimal(int, int)"))
    {
      r := Err(Unsupported("getBigDecimal(int, int)"));
    }

    method GetUnicodeStream(col: int) returns (r: Result<Option<StreamHandle>>)
      ensures r == Err(Unsupported("ResultSet.getUnicodeStream"))
    {
      r := Err(Unsupported("ResultSet.getUnicodeStream"));
    }

    method RefreshRow() returns (r: Result<()>)
      ensures r == Err(Unsupported("Refresh row"))
    {
      r := Err(Unsupported("Refresh row"));
    }

    // -----------------------------------------------------------------
    // Updaters

    /** Stands for the row's own updateObject, which this class does not
        implement: it records the call. */
    method UpdateObject(col: int, x: Value)
      modifies this`updates
      ensures updates == old(updates) + [(col, x)]
      ensures Snapshot() == Step(env, old(Snapshot()), Forward(col, x))
    {
      updates := updates + [(col, x)];
    }

    method UpdateArray(col: int, x: Value)
      requires OfType(env.classes, ArrayClass, x)
      modifies this`updates
      ensures updates == old(updates) + [(col, x)]
      ensures Snapshot() == Step(env, old(Snapshot()), Forward(col, x))
    {
      UpdateObject(col, x);
    }

    /** The stream is read through an InputStreamReader for US-ASCII; a JVM
        without that charset refuses the update and nothing is forwarded. */
    method UpdateAsciiStream(col: int, x: InputStreamRef, length: int32, usAsciiAvailable: bool)
      returns (r: Result<()>)
      modifies this`updates
      ensures r.Ok? <==> usAsciiAvailable
      ensures r.Err? ==> r.error == EncodingUnavailable("US-ASCII encoding is not supported by this JVM")
      ensures var v := Clob(ClobOfReader(UsAsciiReader(x), length));
              updates == if usAsciiAvailable then old(updates) + [(col, v)] else old(updates)
      ensures Snapshot() == Step(env, old(Snapshot()),
                                 if usAsciiAvailable then Forward(col, Clob(ClobOfReader(UsAsciiReader(x), length)))
                                 else Inert)
    {
      if usAsciiAvailable {
        UpdateObject(col, Clob(ClobOfReader(UsAsciiReader(x), length)));
        r := Ok(());
      } else {
        r := Err(EncodingUnavailable("US-ASCII encoding is not supported by this JVM"));
      }
    }

    method UpdateBigDecimal(col: int, x: Value)
      requires OfType(env.classes, BigDecimalClass, x)
      modifies this`updates
      ensures updates == old(updates) + [(col, x)]
      ensures Snapshot() == Step(env, old(Snapshot()), Forward(col, x))
    {
      UpdateObject(col, x);
    }

    method UpdateBinaryStream(col: int, x: InputStreamRef, length: int32)
      modifies this`updates
      ensures updates == old(updates) + [(col, Blob(BlobOfStream(x, length)))]
      ensures Snapshot() == Step(env, old(Snapshot()), Forward(col, Blob(BlobOfStream(x, length))))
    {
      UpdateBlob(col, Blob(BlobOfStream(x, length)));
    }

    method UpdateBlob(col: int, x: Value)
      requires OfType(env.classes, BlobClass, x)
      modifies this`updates
      ensures updates == old(updates) + [(col, x)]
      ensures Snapshot() == Step(env, old(Snapshot()), Forward(col, x))
    {
      UpdateObject(col, x);
    }

    /** Forwards Boolean.TRUE or Boolean.FALSE. */
    method UpdateBoolean(col: int, x: bool)
      modifies this`updates
      ensures updates == old(updates) + [(col, Boolean(x))]
      ensures Snapshot() == Step(env, old(Snapshot()), Forward(col, Boolean(x)))
    {
      UpdateObject(col, if x then Boolean(true) else Boolean(false));
    }

    method UpdateByte(col: int, x: int8)
      modifies this`updates
      ensures updates == old(updates) + [(col, Num(ByteBox(x)))]
      ensures Snapshot() == Step(env, old(Snapshot()), Forward(col, Num(ByteBox(x))))
    {
      UpdateObject(col, Num(ByteBox(x)));
    }

    method UpdateBytes(col: int, x: Value)
      requires OfType(env.classes, ByteArrayClass, x)
      modifies this`updates
      ensures updates == old(updates) + [(col, x)]
      ensures Snapshot() == Step(env, old(Snapshot()), Forward(col, x))
    {
      UpdateObject(col, x);
    }

    method UpdateCharacterStream(col: int, x: ReaderRef, length: int32)
      modifies this`updates
      ensures updates == old(updates) + [(col, Clob(ClobOfReader(x, length)))]
      ensures Snapshot() == Step(env, old(Snapshot()), Forward(col, Clob(ClobOfReader(x, length))))
    {
      UpdateClob(col, Clob(ClobOfReader(x, length)));
    }

    method UpdateClob(col: int, x: Value)
      requires OfType(env.classes, ClobClass, x)
      modifies this`updates
      ensures updates == old(updates) + [(col, x)]
      ensures Snapshot() == Step(env, old(Snapshot()), Forward(col, x))
    {
      UpdateObject(col, x);
    }

    method UpdateDate(col: int, x: Value)
      requires OfType(env.classes, DateClass, x)
      modifies this`updates
      ensures updates == old(updates) + [(col, x)]
      ensures Snapshot() == Step(env, old(Snapshot()), Forward(col, x))
    {
      UpdateObject(col, x);
    }

    method UpdateDouble(col: int, x: bv64)
      modifies this`updates
      ensures updates == old(updates) + [(col, Num(DoubleBox(x)))]
      ensures Snapshot() == Step(env, old(Snapshot()), Forward(col, Num(DoubleBox(x))))
    {
      UpdateObject(col, Num(DoubleBox(x)));
    }

    method UpdateFloat(col: int, x: bv32)
      modifies this`updates
      ensures updates == old(updates) + [(col, Num(FloatBox(x)))]
      ensures Snapshot() == Step(env, old(Snapshot()), Forward(col, Num(FloatBox(x))))
    {
      UpdateObject(col, Num(FloatBox(x)));
    }

    method UpdateInt(col: int, x: int32)
      modifies this`updates
      ensures updates == old(updates) + [(col, Num(IntegerBox(x)))]
      ensures Snapshot() == Step(env, old(Snapshot()), Forward(col, Num(IntegerBox(x))))
    {
      UpdateObject(col, Num(IntegerBox(x)));
    }

    method UpdateLong(col: int, x: int64)
      modifies this`updates
      ensures updates == old(updates) + [(col, Num(LongBox(x)))]
      ensures Snapshot() == Step(env, old(Snapshot()), Forward(col, Num(LongBox(x))))
    {
      UpdateObject(col, Num(LongBox(x)));
    }

    method UpdateNull(col: int)
      modifies this`updates
      ensures updates == old(updates) + [(col, Null)]
      ensures Snapshot() == Step(env, old(Snapshot()), Forward(col, Null))
    {
      UpdateObject(col, Null);
    }

    method UpdateRef(col: int, x: Value)
      requires OfType(env.classes, RefClass, x)
      modifies this`updates
      ensures updates == old(updates) + [(col, x)]
      ensures Snapshot() == Step(env, old(Snapshot()), Forward(col, x))
    {
      UpdateObject(col, x);
    }

    method UpdateShort(col: int, x: int16)
      modifies this`updates
      ensures updates == old(updates) + [(col, Num(ShortBox(x)))]
      ensures Snapshot() == Step(env, old(Snapshot()), Forward(col, Num(ShortBox(x))))
    {
      UpdateObject(col, Num(ShortBox(x)));
    }

    method UpdateString(col: int, x: Value)
      requires OfType(env.classes, StringClass, x)
      modifies this`updates
      ensures updates == old(updates) + [(col, x)]
      ensures Snapshot() == Step(env, old(Snapshot()), Forward(col, x))
    {
      UpdateObject(col, x);
    }

    method UpdateTime(col: int, x: Value)
      requires OfType(env.classes, TimeClass, x)
      modifies this`updates
      ensures updates == old(updates) + [(col, x)]
      ensures Snapshot() == Step(env, old(Snapshot()), Forward(col, x))
    {
      UpdateObject(col, x);
    }

    method UpdateTimestamp(col: int, x: Value)
      requires OfType(env.classes, TimestampClass, x)
      modifies this`updates
      ensures updates == old(updates) + [(col, x)]
      ensures Snapshot() == Step(env, old(Snapshot()), Forward(col, x))
    {
      UpdateObject(col, x);
    }
  }
}
