/** The values that cross the typed-accessor layer of a PL/Java result set:
    the column values the row source produces, the Java classes a caller can
    ask for, the large-object wrappers, and the failures a call can raise. */
module JdbcValues {

  // Java's signed primitive integer types.
  newtype int8 = x: int | -0x80 <= x < 0x80
  newtype int16 = x: int | -0x8000 <= x < 0x8000
  newtype int32 = x: int | -0x8000_0000 <= x < 0x8000_0000
  newtype int64 = x: int | -0x8000_0000_0000_0000 <= x < 0x8000_0000_0000_0000

  /** What a call can throw. `CannotConvert` and `EncodingUnavailable` are the
      two SQLExceptions built in ObjectResultSet itself, `Unsupported` is an
      UnsupportedFeatureException, `ClassCast` the ClassCastException of a
      reference cast, and `Raised` anything the row source or the coercion
      service throws. */
  datatype SqlError =
    | CannotConvert(actual: string, requested: string)
    | Unsupported(feature: string)
    | EncodingUnavailable(message: string)
    | ClassCast(actual: string, target: string)
    | Raised(message: string)

  /** A call that returns `value` or throws `error`. */
  datatype Result<+T> = Ok(value: T) | Err(error: SqlError) {
    predicate IsFailure() { Err? }
    function PropagateFailure<U>(): Result<U> requires Err? { Err(error) }
    function Extract(): T requires Ok? { value }
  }

  /** An Object reference of a known static type that may be null. */
  datatype Option<+T> = None | Some(value: T)

  /** A readable rendering of a failure. For `CannotConvert` it is the text
      of the SQLException getObject(int, Class) throws; for the other kinds
      it is this model's own rendering of the recorded fields, not the text
      the JVM or the exception class would produce. */
  function Message(e: SqlError): string {
    match e
    case CannotConvert(actual, requested) => "Cannot convert " + actual + " to " + requested
    case Unsupported(feature) => feature
    case EncodingUnavailable(message) => message
    case ClassCast(actual, target) => actual + " cannot be cast to " + target
    case Raised(message) => message
  }

  /** An instance of java.lang.Number: the boxes the numeric coercion hands
      back. Floating-point boxes are kept as their IEEE 754 bit patterns. */
  datatype Number =
    | ByteBox(b: int8)
    | ShortBox(s: int16)
    | IntegerBox(i: int32)
    | LongBox(l: int64)
    | FloatBox(fbits: bv32)
    | DoubleBox(dbits: bv64)
    | BigDecimalBox(unscaled: int, scale: int32)

  predicate IsIntegral(n: Number) {
    n.ByteBox? || n.ShortBox? || n.IntegerBox? || n.LongBox?
  }

  /** The mathematical value of an integral box. */
  function Whole(n: Number): int
    requires IsIntegral(n)
  {
    match n
    case ByteBox(b) => b as int
    case ShortBox(s) => s as int
    case IntegerBox(i) => i as int
    case LongBox(l) => l as int
  }

  // Caller-supplied streams and readers, known only by identity.
  datatype InputStreamRef = InputStreamRef(id: nat)
  datatype ReaderRef =
    | ReaderRef(id: nat)
    | UsAsciiReader(stream: InputStreamRef)  // an InputStreamReader decoding `stream` as US-ASCII

  /** BlobValue: built from bytes already read, or from a stream and a declared length. */
  datatype BlobValue =
    | BlobOfBytes(bytes: seq<bv8>)
    | BlobOfStream(stream: InputStreamRef, length: int32)

  /** ClobValue: built from a string already read, or from a reader and a declared length. */
  datatype ClobValue =
    | ClobOfString(text: string)
    | ClobOfReader(reader: ReaderRef, length: int32)

  /** A stream obtained from a large-object wrapper: which wrapper, and which view of it. */
  datatype StreamHandle =
    | AsciiStream(ofClob: ClobValue)
    | CharacterStream(ofClob: ClobValue)
    | BinaryStream(ofBlob: BlobValue)

  /** A column value of the current row, as an Object reference; `Null` is Java's null. */
  datatype Value =
    | Null
    | Boolean(truth: bool)
    | Num(number: Number)
    | Bytes(bytes: seq<bv8>)
    | Str(text: string)
    | SqlDate(millis: int)
    | SqlTime(millis: int)
    | SqlTimestamp(millis: int, nanos: int)
    | SqlArray(arrayId: nat)
    | SqlRef(refId: nat)
    | Url(spec: string)
    | Blob(blob: BlobValue)
    | Clob(clob: ClobValue)
    | Other(className: UnlistedName, loader: nat, objectId: nat)  // an instance of a class not listed in JavaClass

  /** A Class object naming a reference type. The implementing classes of
      java.sql.Array and java.sql.Ref values are represented by the interfaces
      themselves. `Named` is any other class or interface: its binary name
      and the class loader that defined it, which together identify a class
      (two loaders can each define a class of the same name). A listed class
      is never spelled as `Named`. */
  datatype JavaClass =
    | ObjectClass | BooleanClass | NumberClass
    | ByteClass | ShortClass | IntegerClass | LongClass | FloatClass | DoubleClass
    | BigDecimalClass | ByteArrayClass | StringClass
    | UtilDateClass | DateClass | TimeClass | TimestampClass
    | ArrayClass | RefClass | URLClass
    | BlobClass | ClobClass | BlobValueClass | ClobValueClass
    | Named(name: UnlistedName, loader: nat)

  /** The names `ClassName` gives the listed classes. */
  const ListedClassNames: set<string> := {
    "java.lang.Object", "java.lang.Boolean", "java.lang.Number",
    "java.lang.Byte", "java.lang.Short", "java.lang.Integer", "java.lang.Long",
    "java.lang.Float", "java.lang.Double", "java.math.BigDecimal", "[B",
    "java.lang.String", "java.util.Date", "java.sql.Date", "java.sql.Time",
    "java.sql.Timestamp", "java.sql.Array", "java.sql.Ref", "java.net.URL",
    "java.sql.Blob", "java.sql.Clob",
    "org.postgresql.pljava.jdbc.BlobValue", "org.postgresql.pljava.jdbc.ClobValue"}

  type UnlistedName = s: string | s !in ListedClassNames witness "com.example.Unlisted"

  /** The Class objects of the primitive types (`int.class`, ...) that select
      a width in the numeric coercion. */
  datatype Primitive = ByteType | ShortType | IntType | LongType | FloatType | DoubleType

  /** A java.util.Calendar argument, passed through to the calendrical coercion. */
  datatype Calendar = NoCalendar | CalendarRef(id: nat)

  /** A non-null type map argument of getObject(int, Map). */
  datatype TypeMap = TypeMap(entries: map<string, JavaClass>)

  /** value.getClass() */
  function ClassOf(v: Value): JavaClass
    requires !v.Null?
  {
    match v
    case Boolean(_) => BooleanClass
    case Num(n) =>
      (match n
       case ByteBox(_) => ByteClass
       case ShortBox(_) => ShortClass
       case IntegerBox(_) => IntegerClass
       case LongBox(_) => LongClass
       case FloatBox(_) => FloatClass
       case DoubleBox(_) => DoubleClass
       case BigDecimalBox(_, _) => BigDecimalClass)
    case Bytes(_) => ByteArrayClass
    case Str(_) => StringClass
    case SqlDate(_) => DateClass
    case SqlTime(_) => TimeClass
    case SqlTimestamp(_, _) => TimestampClass
    case SqlArray(_) => ArrayClass
    case SqlRef(_) => RefClass
    case Url(_) => URLClass
    case Blob(_) => BlobValueClass
    case Clob(_) => ClobValueClass
    case Other(name, loader, _) => Named(name, loader)
  }

  /** The supertypes among the listed classes that the Java platform fixes
      for the listed classes themselves. */
  predicate KnownSubclass(sub: JavaClass, sup: JavaClass) {
    match sup
    case NumberClass =>
      || sub.ByteClass? || sub.ShortClass? || sub.IntegerClass? || sub.LongClass?
      || sub.FloatClass? || sub.DoubleClass? || sub.BigDecimalClass?
    case UtilDateClass => sub.DateClass? || sub.TimeClass? || sub.TimestampClass?
    case BlobClass => sub.BlobValueClass?
    case ClobClass => sub.ClobValueClass?
    case _ => false
  }

  /** The listed classes that are final (and `byte[]`, which no class
      extends): nothing but themselves is assignable to them. */
  predicate FinalClass(c: JavaClass) {
    || c.BooleanClass? || c.ByteClass? || c.ShortClass? || c.IntegerClass? || c.LongClass?
    || c.FloatClass? || c.DoubleClass? || c.ByteArrayClass? || c.StringClass?
  }

  /** `sup.isAssignableFrom(sub)` as the running JVM answers it. The hierarchy
      is open: any class may have further supertypes (String is also a
      CharSequence, a Comparable and a Serializable; a foreign class may
      implement Blob), so it is a parameter. */
  datatype ClassRelation = ClassRelation(assignable: (JavaClass, JavaClass) -> bool)

  /** What every Java class hierarchy satisfies: assignability is reflexive
      and transitive, Object is above every class, the listed classes have
      their platform supertypes, and a final class has no other subclass. */
  ghost predicate Sound(h: ClassRelation) {
    && (forall c :: h.assignable(c, c))
    && (forall c :: h.assignable(c, ObjectClass))
    && (forall a, b, c :: h.assignable(a, b) && h.assignable(b, c) ==> h.assignable(a, c))
    && (forall sub, sup :: KnownSubclass(sub, sup) ==> h.assignable(sub, sup))
    && (forall sub, sup :: FinalClass(sup) && h.assignable(sub, sup) ==> sub == sup)
  }

  /** A class hierarchy of a running JVM. */
  type Hierarchy = h: ClassRelation | Sound(h)
    ghost witness ClassRelation((sub: JavaClass, sup: JavaClass) => sub == sup || sup == ObjectClass || KnownSubclass(sub, sup))

  /** `type.isInstance(value)`: false for null. */
  predicate IsInstance(h: Hierarchy, t: JavaClass, v: Value) {
    !v.Null? && h.assignable(ClassOf(v), t)
  }

  /** A reference of static type `t` may hold `v`: it is null or an instance of `t`. */
  predicate OfType(h: Hierarchy, t: JavaClass, v: Value) {
    v.Null? || IsInstance(h, t, v)
  }

  /** `type.getName()` */
  function ClassName(c: JavaClass): string {
    match c
    case ObjectClass => "java.lang.Object"
    case BooleanClass => "java.lang.Boolean"
    case NumberClass => "java.lang.Number"
    case ByteClass => "java.lang.Byte"
    case ShortClass => "java.lang.Short"
    case IntegerClass => "java.lang.Integer"
    case LongClass => "java.lang.Long"
    case FloatClass => "java.lang.Float"
    case DoubleClass => "java.lang.Double"
    case BigDecimalClass => "java.math.BigDecimal"
    case ByteArrayClass => "[B"
    case StringClass => "java.lang.String"
    case UtilDateClass => "java.util.Date"
    case DateClass => "java.sql.Date"
    case TimeClass => "java.sql.Time"
    case TimestampClass => "java.sql.Timestamp"
    case ArrayClass => "java.sql.Array"
    case RefClass => "java.sql.Ref"
    case URLClass => "java.net.URL"
    case BlobClass => "java.sql.Blob"
    case ClobClass => "java.sql.Clob"
    case BlobValueClass => "org.postgresql.pljava.jdbc.BlobValue"
    case ClobValueClass => "org.postgresql.pljava.jdbc.ClobValue"
    case Named(name, _) => name
  }

  // Narrowing primitive conversion of section 5.1.3 of The Java Language
  // Specification: keep the low-order bits, read them as two's complement.

  function ToInt8(x: int): (r: int8)
    ensures (x - r as int) % 0x100 == 0
    ensures -0x80 <= x < 0x80 ==> r as int == x
  {
    var m := x % 0x100;
    (if m < 0x80 then m else m - 0x100) as int8
  }

  function ToInt16(x: int): (r: int16)
    ensures (x - r as int) % 0x1_0000 == 0
    ensures -0x8000 <= x < 0x8000 ==> r as int == x
  {
    var m := x % 0x1_0000;
    (if m < 0x8000 then m else m - 0x1_0000) as int16
  }

  function ToInt32(x: int): (r: int32)
    ensures (x - r as int) % 0x1_0000_0000 == 0
    ensures -0x8000_0000 <= x < 0x8000_0000 ==> r as int == x
  {
    var m := x % 0x1_0000_0000;
    (if m < 0x8000_0000 then m else m - 0x1_0000_0000) as int32
  }

  function ToInt64(x: int): (r: int64)
    ensures (x - r as int) % 0x1_0000_0000_0000_0000 == 0
    ensures -0x8000_0000_0000_0000 <= x < 0x8000_0000_0000_0000 ==> r as int == x
  {
    var m := x % 0x1_0000_0000_0000_0000;
    (if m < 0x8000_0000_0000_0000 then m else m - 0x1_0000_0000_0000_0000) as int64
  }
}
