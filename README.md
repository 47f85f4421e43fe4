# ObjectResultSet: typed column access for PL/Java result sets

This project models `ObjectResultSet`, the typed-accessor layer of PL/Java's JDBC result sets, and proves its protocol. Every typed getter of the class ends in one abstract extraction, `getObjectValue(int, Class)`, which a concrete result set implements. It gets there through one of four members that record the was-null flag: `getObject(int)`, `getObject(int, Map)`, `getObject(int, Class)` and `getNumber`. It then applies a coercion from `SPIConnection`, a reference cast, a null-to-default substitution, or a wrap in `BlobValue`/`ClobValue`. Every updater boxes or wraps its argument and hands it to `updateObject`.

Layout:

- `jdbc_values.dfy` (`JdbcValues`): the values a column can hold, Java classes with `isInstance` and `getName`, the large-object wrappers, the failures, and the narrowing conversion of section 5.1.3 of The Java Language Specification.
- `extraction.dfy` (`Extraction`): the collaborators, bundled as `Env`. The concrete `getObjectValue(int, Class)`, the three coercions and the floating/decimal parts of `Number.xxxValue()` are function-typed parameters. One function per read path gives what a getter returns or throws.
- `protocol.dfy` (`Protocol`): the object's state (the flag and the `updateObject` log), the effect of one call and of a sequence of calls, and the lemmas about that effect. These lemmas say that `wasNull` answers for the last extraction that returned, and that the write path loses nothing.
- `object_result_set.dfy` (`ObjectResultSets`): the class. It has a `wasNull` field and an `updates` log that stands in for the row `updateObject` changes. Its methods call each other the way the Java methods do. Each getter is proved against its `Extraction` function, and each method that changes state is proved against `Protocol.Step`. `WasNull`, the warning methods and the refused calls change nothing (they have no `modifies` clause).
- `round_trip.dfy` (`RoundTrip`): a row source that answers each column with the last value forwarded to it. With it, each primitive updater, each reference updater whose getter is `getValue` followed by a cast, and `updateNull` is followed by its getter returning what was written. Bytes and strings read back through `getBlob`/`getClob` are wrapped exactly.

Facts about the code that the model makes explicit:

- Four members write the flag: the three `getObject` overloads and `getNumber`. Every typed getter reaches one of them. `getBigDecimal(int, int)`, `getUnicodeStream`, `getMetaData`, `getWarnings` and `refreshRow` reach none of them and leave the flag alone.
- `getWarnings` returns null, not an empty warning chain.
- A non-null type map makes `getObject(int, Map)` throw before the flag is written, so the flag keeps its old value.
- The flag records the raw extracted value, before any coercion. A coercion that turns a non-null value into null makes `getInt` return 0 while `wasNull()` is false.
- A class outside the listed ones is identified by its binary name together with its defining class loader, as in the JVM. So the same name defined by two loaders gives two classes.
- `isInstance` and the `(T)` casts consult the JVM's class hierarchy, which this class does not fix. The hierarchy is a parameter (`JdbcValues.Hierarchy`). Any such hierarchy is reflexive and transitive, has `Object` above every class, gives the listed classes their platform supertypes (`Number`, `java.util.Date`, `Blob`, `Clob`), and gives final classes such as `String` no other subclass. So a `String` passes `getObject(col, CharSequence.class)` under any hierarchy in which `String` is a `CharSequence`.

## Model

| member | source | states |
|---|---|---|
| `JdbcValues.ToInt8` | pljava/src/main/java/org/postgresql/pljava/jdbc/ObjectResultSet.java:177 | the `byte` result is congruent to its input modulo 2^8, and equals it when it fits |
| `JdbcValues.ToInt16` | pljava/src/main/java/org/postgresql/pljava/jdbc/ObjectResultSet.java:320 | the `short` result is congruent to its input modulo 2^16, and equals it when it fits |
| `JdbcValues.ToInt32` | pljava/src/main/java/org/postgresql/pljava/jdbc/ObjectResultSet.java:262 | the `int` result is congruent to its input modulo 2^32, and equals it when it fits |
| `JdbcValues.ToInt64` | pljava/src/main/java/org/postgresql/pljava/jdbc/ObjectResultSet.java:273 | the `long` result is congruent to its input modulo 2^64, and equals it when it fits |
| `Extraction.ObjectValue` | pljava/src/main/java/org/postgresql/pljava/jdbc/ObjectResultSet.java:707-711 | `getObjectValue(int)` is the abstract extraction asked for a null class |
| `Extraction.ObjectValueWithMap` | pljava/src/main/java/org/postgresql/pljava/jdbc/ObjectResultSet.java:690-697 | with a null map it equals `getObjectValue(int)`, and so the extraction with a null class; any map is refused as unsupported ("Obtaining values using explicit Map") |
| `Extraction.CheckInstance` | pljava/src/main/java/org/postgresql/pljava/jdbc/ObjectResultSet.java:643-646 | passes a value unchanged exactly when it is null or `type.isInstance` holds for it in the JVM's class hierarchy; otherwise the failure is "Cannot convert" followed by the value's class name, " to " and the requested class name |
| `Extraction.StrictObjectOf` | pljava/src/main/java/org/postgresql/pljava/jdbc/ObjectResultSet.java:638-647 | `getObject(col, type)` returns null or an instance of `type` in the class hierarchy, exactly the value extracted with `type` requested; a value of a class not assignable to `type` fails as a conversion error naming `type`; an extraction failure propagates |
| `Extraction.SameNameOtherLoader` | pljava/src/main/java/org/postgresql/pljava/jdbc/ObjectResultSet.java:643-646 | an instance of a class defined by another loader under the same name is refused unless the hierarchy relates the two classes, with the message "Cannot convert N to N" |
| `Extraction.ObjectIsNeverRefused` | pljava/src/main/java/org/postgresql/pljava/jdbc/ObjectResultSet.java:643 | `getObject(col, Object.class)` never refuses a value: it returns exactly what was extracted |
| `Extraction.CheckInstanceUpward` | pljava/src/main/java/org/postgresql/pljava/jdbc/ObjectResultSet.java:643 | a value that passes the instance check for a class passes it, unchanged, for every supertype of that class |
| `Extraction.ValueOf` | pljava/src/main/java/org/postgresql/pljava/jdbc/ObjectResultSet.java:669-673 | `getValue` is the basic coercion of what `getObject(int)` returned; an extraction failure propagates unchanged |
| `Extraction.CalendricalValueOf` | pljava/src/main/java/org/postgresql/pljava/jdbc/ObjectResultSet.java:679-684 | the calendrical `getValue` is the calendrical coercion, with the caller's calendar, of what `getObject(int)` returned |
| `Extraction.NumberOf` | pljava/src/main/java/org/postgresql/pljava/jdbc/ObjectResultSet.java:657-663 | `getNumber` is the numeric coercion, for the requested primitive, of the value extracted with no class |
| `Extraction.CastTo` | pljava/src/main/java/org/postgresql/pljava/jdbc/ObjectResultSet.java:330 | the reference cast in each getter lets through exactly null and instances of the target class; anything else is a class-cast failure naming both classes |
| `Extraction.TypedOf` | pljava/src/main/java/org/postgresql/pljava/jdbc/ObjectResultSet.java:98-102 | the reference getters (array, BigDecimal, bytes, date, ref, string, time, timestamp, URL) return null or an instance of their class, and then the coerced value itself |
| `Extraction.CalendricalTypedOf` | pljava/src/main/java/org/postgresql/pljava/jdbc/ObjectResultSet.java:226-230 | the date/time/timestamp getters with a calendar return null or an instance of their class, and then the coerced value itself |
| `Extraction.BooleanOf` | pljava/src/main/java/org/postgresql/pljava/jdbc/ObjectResultSet.java:162-167 | `getBoolean` is true exactly for a `Boolean.TRUE`; null reads as false; it fails exactly when the `Boolean` getter does |
| `Extraction.ByteValue` | pljava/src/main/java/org/postgresql/pljava/jdbc/ObjectResultSet.java:177 | `byteValue()` of an integral box is its value modulo 2^8 |
| `Extraction.ShortValue` | pljava/src/main/java/org/postgresql/pljava/jdbc/ObjectResultSet.java:320 | `shortValue()` of an integral box is its value modulo 2^16 |
| `Extraction.IntValue` | pljava/src/main/java/org/postgresql/pljava/jdbc/ObjectResultSet.java:262 | `intValue()` of an integral box is its value modulo 2^32 |
| `Extraction.LongValue` | pljava/src/main/java/org/postgresql/pljava/jdbc/ObjectResultSet.java:273 | `longValue()` of an integral box is its value modulo 2^64 |
| `Extraction.ByteOf` | pljava/src/main/java/org/postgresql/pljava/jdbc/ObjectResultSet.java:173-178 | `getByte` fails exactly when `getNumber` does, reads a null Number as 0, and otherwise narrows the Number to a byte |
| `Extraction.ShortOf` | pljava/src/main/java/org/postgresql/pljava/jdbc/ObjectResultSet.java:316-321 | `getShort` fails exactly when `getNumber` does, reads a null Number as 0, and otherwise narrows the Number to a short |
| `Extraction.IntOf` | pljava/src/main/java/org/postgresql/pljava/jdbc/ObjectResultSet.java:258-263 | `getInt` fails exactly when `getNumber` does, reads a null Number as 0, and otherwise narrows the Number to an int |
| `Extraction.LongOf` | pljava/src/main/java/org/postgresql/pljava/jdbc/ObjectResultSet.java:269-274 | `getLong` fails exactly when `getNumber` does, reads a null Number as 0, and otherwise narrows the Number to a long |
| `Extraction.FloatOf` | pljava/src/main/java/org/postgresql/pljava/jdbc/ObjectResultSet.java:247-252 | `getFloat` fails exactly when `getNumber` does, reads a null Number as +0.0f, and gives a `Float` its own bits back |
| `Extraction.DoubleOf` | pljava/src/main/java/org/postgresql/pljava/jdbc/ObjectResultSet.java:236-241 | `getDouble` fails exactly when `getNumber` does, reads a null Number as +0.0, and gives a `Double` its own bits back |
| `Extraction.BlobOf` | pljava/src/main/java/org/postgresql/pljava/jdbc/ObjectResultSet.java:151-156 | `getBlob` is null exactly when `getBytes` is null, fails exactly when it fails, and otherwise is a `BlobValue` over exactly the bytes `getBytes` returned |
| `Extraction.ClobOf` | pljava/src/main/java/org/postgresql/pljava/jdbc/ObjectResultSet.java:205-210 | `getClob` is null exactly when `getString` is null, fails exactly when it fails, and otherwise is a `ClobValue` over exactly the string `getString` returned |
| `Extraction.AsciiStreamOf` | pljava/src/main/java/org/postgresql/pljava/jdbc/ObjectResultSet.java:108-113 | `getAsciiStream` is null exactly when `getClob` is null, and otherwise is the ASCII stream of that Clob |
| `Extraction.CharacterStreamOf` | pljava/src/main/java/org/postgresql/pljava/jdbc/ObjectResultSet.java:194-199 | `getCharacterStream` is null exactly when `getClob` is null, and otherwise is the Reader of that Clob |
| `Extraction.BinaryStreamOf` | pljava/src/main/java/org/postgresql/pljava/jdbc/ObjectResultSet.java:140-145 | `getBinaryStream` is null exactly when `getBlob` is null, and otherwise is the binary stream of that Blob |
| `Extraction.NullColumnReadsAsDefaults` | pljava/src/main/java/org/postgresql/pljava/jdbc/ObjectResultSet.java:162-178 | on a null column, with coercions that keep null, every getter gives its type's default: false, 0, +0.0, null, no Blob, Clob or stream |
| `Protocol.UpdatesLoseNothing` | pljava/src/main/java/org/postgresql/pljava/jdbc/ObjectResultSet.java:407-626 | after any sequence of calls, the update log is the old log followed by every forwarded (column, value) pair, in call order |
| `Protocol.WasNullIsLastExtraction` | pljava/src/main/java/org/postgresql/pljava/jdbc/ObjectResultSet.java:280-300 | after any sequence of calls, `wasNull` is the nullness of the value from the last extraction that returned, whatever came after it |
| `Protocol.WasNullWithoutExtraction` | pljava/src/main/java/org/postgresql/pljava/jdbc/ObjectResultSet.java:47-56 | calls that extract nothing (updaters, refused calls, extractions that threw) leave `wasNull` as it was |
| `Protocol.LaterReadDecides` | pljava/src/main/java/org/postgresql/pljava/jdbc/ObjectResultSet.java:638-663 | after two reads, `wasNull` reflects the second one's value, not the first's |
| `Protocol.ReadsLeaveUpdates` | pljava/src/main/java/org/postgresql/pljava/jdbc/ObjectResultSet.java:665-684 | a sequence of reads leaves the update log unchanged |
| `ObjectResultSets.ObjectResultSet.constructor` | pljava/src/main/java/org/postgresql/pljava/jdbc/ObjectResultSet.java:47 | a new result set has `wasNull` false and has forwarded nothing |
| `ObjectResultSets.ObjectResultSet.WasNull` | pljava/src/main/java/org/postgresql/pljava/jdbc/ObjectResultSet.java:53-56 | returns the flag and changes nothing |
| `ObjectResultSets.ObjectResultSet.ClearWarnings` | pljava/src/main/java/org/postgresql/pljava/jdbc/ObjectResultSet.java:62-65 | succeeds and changes nothing |
| `ObjectResultSets.ObjectResultSet.GetWarnings` | pljava/src/main/java/org/postgresql/pljava/jdbc/ObjectResultSet.java:71-75 | returns null and changes nothing |
| `ObjectResultSets.ObjectResultSet.GetMetaData` | pljava/src/main/java/org/postgresql/pljava/jdbc/ObjectResultSet.java:82-87 | always fails as unsupported ("ResultSet meta data is not yet implemented") and changes nothing |
| `ObjectResultSets.ObjectResultSet.GetObject` | pljava/src/main/java/org/postgresql/pljava/jdbc/ObjectResultSet.java:281-287 | returns the extracted value unchanged; the flag becomes "that value is null", or keeps its old value if the extraction threw; the log is unchanged |
| `ObjectResultSets.ObjectResultSet.GetObjectWithMap` | pljava/src/main/java/org/postgresql/pljava/jdbc/ObjectResultSet.java:294-300 | returns `getObjectValue(col, map)`; the flag records its nullness; a non-null map fails and leaves the flag untouched |
| `ObjectResultSets.ObjectResultSet.GetObjectAs` | pljava/src/main/java/org/postgresql/pljava/jdbc/ObjectResultSet.java:638-647 | returns null or an instance of the type in the class hierarchy, and otherwise fails with "Cannot convert"; the flag is written from the extracted value before the check, so it is written even when the call fails |
| `ObjectResultSets.ObjectResultSet.GetNumber` | pljava/src/main/java/org/postgresql/pljava/jdbc/ObjectResultSet.java:657-663 | returns the numeric coercion; the flag records the raw value before coercion |
| `ObjectResultSets.ObjectResultSet.GetValue` | pljava/src/main/java/org/postgresql/pljava/jdbc/ObjectResultSet.java:669-673 | returns the basic coercion of `getObject(col)`; the state changes exactly as for `getObject(col)` |
| `ObjectResultSets.ObjectResultSet.GetValueWithCalendar` | pljava/src/main/java/org/postgresql/pljava/jdbc/ObjectResultSet.java:679-684 | returns the calendrical coercion of `getObject(col)`; the state changes exactly as for `getObject(col)` |
| `ObjectResultSets.ObjectResultSet.GetTyped` | pljava/src/main/java/org/postgresql/pljava/jdbc/ObjectResultSet.java:327-331 | `(T) getValue(col, T.class)`: returns the typed result of that getter; the state changes as for `getObject(col)` |
| `ObjectResultSets.ObjectResultSet.GetArray` | pljava/src/main/java/org/postgresql/pljava/jdbc/ObjectResultSet.java:98-102 | returns null or an `Array` from `getValue`; the state changes as for `getObject(col)` |
| `ObjectResultSets.ObjectResultSet.GetBigDecimal` | pljava/src/main/java/org/postgresql/pljava/jdbc/ObjectResultSet.java:119-123 | returns null or a `BigDecimal` from `getValue`; the state changes as for `getObject(col)` |
| `ObjectResultSets.ObjectResultSet.GetBytes` | pljava/src/main/java/org/postgresql/pljava/jdbc/ObjectResultSet.java:184-188 | returns null or a `byte[]` from `getValue`; the state changes as for `getObject(col)` |
| `ObjectResultSets.ObjectResultSet.GetDate` | pljava/src/main/java/org/postgresql/pljava/jdbc/ObjectResultSet.java:216-220 | returns null or a `Date` from `getValue`; the state changes as for `getObject(col)` |
| `ObjectResultSets.ObjectResultSet.GetRef` | pljava/src/main/java/org/postgresql/pljava/jdbc/ObjectResultSet.java:306-310 | returns null or a `Ref` from `getValue`; the state changes as for `getObject(col)` |
| `ObjectResultSets.ObjectResultSet.GetString` | pljava/src/main/java/org/postgresql/pljava/jdbc/ObjectResultSet.java:327-331 | returns null or a `String` from `getValue`; the state changes as for `getObject(col)` |
| `ObjectResultSets.ObjectResultSet.GetTime` | pljava/src/main/java/org/postgresql/pljava/jdbc/ObjectResultSet.java:337-341 | returns null or a `Time` from `getValue`; the state changes as for `getObject(col)` |
| `ObjectResultSets.ObjectResultSet.GetTimestamp` | pljava/src/main/java/org/postgresql/pljava/jdbc/ObjectResultSet.java:357-361 | returns null or a `Timestamp` from `getValue`; the state changes as for `getObject(col)` |
| `ObjectResultSets.ObjectResultSet.GetURL` | pljava/src/main/java/org/postgresql/pljava/jdbc/ObjectResultSet.java:387-390 | returns null or a `URL` from `getValue`; the state changes as for `getObject(col)` |
| `ObjectResultSets.ObjectResultSet.GetTypedWithCalendar` | pljava/src/main/java/org/postgresql/pljava/jdbc/ObjectResultSet.java:226-230 | `(T) getValue(col, T.class, cal)`: returns the typed calendrical result; the state changes as for `getObject(col)` |
| `ObjectResultSets.ObjectResultSet.GetDateWithCalendar` | pljava/src/main/java/org/postgresql/pljava/jdbc/ObjectResultSet.java:226-230 | returns null or a `Date` from the calendrical `getValue`; the state changes as for `getObject(col)` |
| `ObjectResultSets.ObjectResultSet.GetTimeWithCalendar` | pljava/src/main/java/org/postgresql/pljava/jdbc/ObjectResultSet.java:347-351 | returns null or a `Time` from the calendrical `getValue`; the state changes as for `getObject(col)` |
| `ObjectResultSets.ObjectResultSet.GetTimestampWithCalendar` | pljava/src/main/java/org/postgresql/pljava/jdbc/ObjectResultSet.java:367-371 | returns null or a `Timestamp` from the calendrical `getValue`; the state changes as for `getObject(col)` |
| `ObjectResultSets.ObjectResultSet.GetBoolean` | pljava/src/main/java/org/postgresql/pljava/jdbc/ObjectResultSet.java:162-167 | returns `BooleanOf` (null reads as false); the state changes as for `getObject(col)` |
| `ObjectResultSets.ObjectResultSet.GetByte` | pljava/src/main/java/org/postgresql/pljava/jdbc/ObjectResultSet.java:173-178 | returns `ByteOf` (null reads as 0); the state changes as for `getNumber` |
| `ObjectResultSets.ObjectResultSet.GetShort` | pljava/src/main/java/org/postgresql/pljava/jdbc/ObjectResultSet.java:316-321 | returns `ShortOf` (null reads as 0); the state changes as for `getNumber` |
| `ObjectResultSets.ObjectResultSet.GetInt` | pljava/src/main/java/org/postgresql/pljava/jdbc/ObjectResultSet.java:258-263 | returns `IntOf` (null reads as 0); the state changes as for `getNumber` |
| `ObjectResultSets.ObjectResultSet.GetLong` | pljava/src/main/java/org/postgresql/pljava/jdbc/ObjectResultSet.java:269-274 | returns `LongOf` (null reads as 0); the state changes as for `getNumber` |
| `ObjectResultSets.ObjectResultSet.GetFloat` | pljava/src/main/java/org/postgresql/pljava/jdbc/ObjectResultSet.java:247-252 | returns `FloatOf` (null reads as +0.0f); the state changes as for `getNumber` |
| `ObjectResultSets.ObjectResultSet.GetDouble` | pljava/src/main/java/org/postgresql/pljava/jdbc/ObjectResultSet.java:236-241 | returns `DoubleOf` (null reads as +0.0); the state changes as for `getNumber` |
| `ObjectResultSets.ObjectResultSet.GetBlob` | pljava/src/main/java/org/postgresql/pljava/jdbc/ObjectResultSet.java:151-156 | returns `BlobOf`, the wrap of what `getBytes` returned; the state changes as for `getObject(col)` |
| `ObjectResultSets.ObjectResultSet.GetClob` | pljava/src/main/java/org/postgresql/pljava/jdbc/ObjectResultSet.java:205-210 | returns `ClobOf`, the wrap of what `getString` returned; the state changes as for `getObject(col)` |
| `ObjectResultSets.ObjectResultSet.GetAsciiStream` | pljava/src/main/java/org/postgresql/pljava/jdbc/ObjectResultSet.java:108-113 | returns `AsciiStreamOf`; the state changes as for `getObject(col)` |
| `ObjectResultSets.ObjectResultSet.GetCharacterStream` | pljava/src/main/java/org/postgresql/pljava/jdbc/ObjectResultSet.java:194-199 | returns `CharacterStreamOf`; the state changes as for `getObject(col)` |
| `ObjectResultSets.ObjectResultSet.GetBinaryStream` | pljava/src/main/java/org/postgresql/pljava/jdbc/ObjectResultSet.java:140-145 | returns `BinaryStreamOf`; the state changes as for `getObject(col)` |
| `ObjectResultSets.ObjectResultSet.GetBigDecimalScaled` | pljava/src/main/java/org/postgresql/pljava/jdbc/ObjectResultSet.java:130-134 | always fails as unsupported ("getBigDecimal(int, int)") and changes nothing |
| `ObjectResultSets.ObjectResultSet.GetUnicodeStream` | pljava/src/main/java/org/postgresql/pljava/jdbc/ObjectResultSet.java:377-381 | always fails as unsupported ("ResultSet.getUnicodeStream") and changes nothing |
| `ObjectResultSets.ObjectResultSet.RefreshRow` | pljava/src/main/java/org/postgresql/pljava/jdbc/ObjectResultSet.java:396-400 | always fails as unsupported ("Refresh row") and changes nothing |
| `ObjectResultSets.ObjectResultSet.UpdateObject` | pljava/src/main/java/org/postgresql/pljava/jdbc/ObjectResultSet.java:413 | appends exactly the one pair (column, value) to the log; the flag is untouched |
| `ObjectResultSets.ObjectResultSet.UpdateArray` | pljava/src/main/java/org/postgresql/pljava/jdbc/ObjectResultSet.java:411-414 | forwards the argument itself, once, for the same column |
| `ObjectResultSets.ObjectResultSet.UpdateAsciiStream` | pljava/src/main/java/org/postgresql/pljava/jdbc/ObjectResultSet.java:421-434 | forwards a `ClobValue` over a US-ASCII reader of the stream, with the declared length; without that charset it fails with "US-ASCII encoding is not supported by this JVM" and forwards nothing |
| `ObjectResultSets.ObjectResultSet.UpdateBigDecimal` | pljava/src/main/java/org/postgresql/pljava/jdbc/ObjectResultSet.java:440-444 | forwards the argument itself, once, for the same column |
| `ObjectResultSets.ObjectResultSet.UpdateBinaryStream` | pljava/src/main/java/org/postgresql/pljava/jdbc/ObjectResultSet.java:451-455 | goes through `updateBlob` and forwards a `BlobValue` over the stream, with the declared length |
| `ObjectResultSets.ObjectResultSet.UpdateBlob` | pljava/src/main/java/org/postgresql/pljava/jdbc/ObjectResultSet.java:461-465 | forwards the argument itself, once, for the same column |
| `ObjectResultSets.ObjectResultSet.UpdateBoolean` | pljava/src/main/java/org/postgresql/pljava/jdbc/ObjectResultSet.java:471-475 | forwards `Boolean.TRUE` or `Boolean.FALSE` to match the argument |
| `ObjectResultSets.ObjectResultSet.UpdateByte` | pljava/src/main/java/org/postgresql/pljava/jdbc/ObjectResultSet.java:481-485 | forwards the argument boxed as a `Byte` |
| `ObjectResultSets.ObjectResultSet.UpdateBytes` | pljava/src/main/java/org/postgresql/pljava/jdbc/ObjectResultSet.java:491-495 | forwards the argument itself, once, for the same column |
| `ObjectResultSets.ObjectResultSet.UpdateCharacterStream` | pljava/src/main/java/org/postgresql/pljava/jdbc/ObjectResultSet.java:502-506 | goes through `updateClob` and forwards a `ClobValue` over the reader, with the declared length |
| `ObjectResultSets.ObjectResultSet.UpdateClob` | pljava/src/main/java/org/postgresql/pljava/jdbc/ObjectResultSet.java:512-516 | forwards the argument itself, once, for the same column |
| `ObjectResultSets.ObjectResultSet.UpdateDate` | pljava/src/main/java/org/postgresql/pljava/jdbc/ObjectResultSet.java:522-526 | forwards the argument itself, once, for the same column |
| `ObjectResultSets.ObjectResultSet.UpdateDouble` | pljava/src/main/java/org/postgresql/pljava/jdbc/ObjectResultSet.java:532-536 | forwards the argument boxed as a `Double` |
| `ObjectResultSets.ObjectResultSet.UpdateFloat` | pljava/src/main/java/org/postgresql/pljava/jdbc/ObjectResultSet.java:542-546 | forwards the argument boxed as a `Float` |
| `ObjectResultSets.ObjectResultSet.UpdateInt` | pljava/src/main/java/org/postgresql/pljava/jdbc/ObjectResultSet.java:552-556 | forwards the argument boxed as an `Integer` |
| `ObjectResultSets.ObjectResultSet.UpdateLong` | pljava/src/main/java/org/postgresql/pljava/jdbc/ObjectResultSet.java:562-566 | forwards the argument boxed as a `Long` |
| `ObjectResultSets.ObjectResultSet.UpdateNull` | pljava/src/main/java/org/postgresql/pljava/jdbc/ObjectResultSet.java:572-576 | forwards null |
| `ObjectResultSets.ObjectResultSet.UpdateRef` | pljava/src/main/java/org/postgresql/pljava/jdbc/ObjectResultSet.java:582-586 | forwards the argument itself, once, for the same column |
| `ObjectResultSets.ObjectResultSet.UpdateShort` | pljava/src/main/java/org/postgresql/pljava/jdbc/ObjectResultSet.java:592-596 | forwards the argument boxed as a `Short` |
| `ObjectResultSets.ObjectResultSet.UpdateString` | pljava/src/main/java/org/postgresql/pljava/jdbc/ObjectResultSet.java:602-606 | forwards the argument itself, once, for the same column |
| `ObjectResultSets.ObjectResultSet.UpdateTime` | pljava/src/main/java/org/postgresql/pljava/jdbc/ObjectResultSet.java:612-616 | forwards the argument itself, once, for the same column |
| `ObjectResultSets.ObjectResultSet.UpdateTimestamp` | pljava/src/main/java/org/postgresql/pljava/jdbc/ObjectResultSet.java:622-626 | forwards the argument itself, once, for the same column |
| `RoundTrip.LastWritten` | pljava/src/main/java/org/postgresql/pljava/jdbc/ObjectResultSet.java:407-413 | the mock row answers nothing for a column exactly when no update named it, and otherwise the value of an update to that column after which no update names the column again: the last one |
| `RoundTrip.OtherColumnsUnaffected` | pljava/src/main/java/org/postgresql/pljava/jdbc/ObjectResultSet.java:411-414 | an update of one column leaves what every other column reads |
| `RoundTrip.ReferenceRoundTrip` | pljava/src/main/java/org/postgresql/pljava/jdbc/ObjectResultSet.java:602-606 | `updateArray`, `updateBigDecimal`, `updateBytes`, `updateDate`, `updateRef`, `updateString`, `updateTime` or `updateTimestamp` followed by the getter of the same class (`getValue` plus a cast) returns what was written |
| `RoundTrip.BooleanRoundTrip` | pljava/src/main/java/org/postgresql/pljava/jdbc/ObjectResultSet.java:471-475 | `updateBoolean(x)` followed by `getBoolean` returns x |
| `RoundTrip.ByteRoundTrip` | pljava/src/main/java/org/postgresql/pljava/jdbc/ObjectResultSet.java:481-485 | `updateByte(x)` followed by `getByte` returns x |
| `RoundTrip.ShortRoundTrip` | pljava/src/main/java/org/postgresql/pljava/jdbc/ObjectResultSet.java:592-596 | `updateShort(x)` followed by `getShort` returns x |
| `RoundTrip.IntRoundTrip` | pljava/src/main/java/org/postgresql/pljava/jdbc/ObjectResultSet.java:552-556 | `updateInt(x)` followed by `getInt` returns x |
| `RoundTrip.LongRoundTrip` | pljava/src/main/java/org/postgresql/pljava/jdbc/ObjectResultSet.java:562-566 | `updateLong(x)` followed by `getLong` returns x |
| `RoundTrip.FloatingRoundTrip` | pljava/src/main/java/org/postgresql/pljava/jdbc/ObjectResultSet.java:532-546 | `updateFloat` then `getFloat`, and `updateDouble` then `getDouble`, return the same bits |
| `RoundTrip.NarrowingAfterWideWrite` | pljava/src/main/java/org/postgresql/pljava/jdbc/ObjectResultSet.java:258-263 | after `updateLong(x)`, `getInt` keeps the low 32 bits and `getByte` the low 8, with no overflow check; a value that fits comes back unchanged |
| `RoundTrip.LargeObjectRoundTrip` | pljava/src/main/java/org/postgresql/pljava/jdbc/ObjectResultSet.java:151-156 | after `updateBytes(B)`, `getBlob` wraps exactly B; after `updateString(S)`, `getClob` wraps exactly S |
| `RoundTrip.StreamWrappersNotReadBack` | pljava/src/main/java/org/postgresql/pljava/jdbc/ObjectResultSet.java:151-156 | after `updateBlob`/`updateBinaryStream` with a stream-backed `BlobValue`, `getBlob` never returns that wrapper; likewise `getClob` after a reader-backed `ClobValue` |
| `RoundTrip.NullRoundTrip` | pljava/src/main/java/org/postgresql/pljava/jdbc/ObjectResultSet.java:572-576 | after `updateNull`, the column extracts as null |

## Left out

- The coercion algorithms of `SPIConnection` (`basicCoersion`, `basicNumericCoersion`, `basicCalendricalCoersion`) are not part of this model. They are uninterpreted function parameters. The round-trip and null-column lemmas state the behaviour they need from them as hypotheses (`KeepsInstances`, `KeepsNumbers`, `NullPreserving`).
- `Calendar` and time-zone adjustment happen inside the calendrical coercion, so a calendar is only an opaque token passed through.
- Extraction.ByteValue: for `Float`, `Double` and `BigDecimal` boxes the result is an uninterpreted conversion, because it is floating-point or decimal arithmetic of the host library. Integral boxes follow the two's-complement narrowing of the Java Language Specification exactly.
- Extraction.ShortValue: for `Float`, `Double` and `BigDecimal` boxes the result is an uninterpreted conversion, for the same reason. Integral boxes are narrowed exactly.
- Extraction.IntValue: for `Float`, `Double` and `BigDecimal` boxes the result is an uninterpreted conversion, for the same reason. Integral boxes are narrowed exactly.
- Extraction.LongValue: for `Float`, `Double` and `BigDecimal` boxes the result is an uninterpreted conversion, for the same reason. Integral boxes are taken exactly.
- Extraction.FloatOf: only a `Float` box (its own bits) and null (+0.0f) are interpreted; `floatValue()` of other Numbers is an uninterpreted floating-point conversion.
- Extraction.DoubleOf: only a `Double` box (its own bits) and null (+0.0) are interpreted; `doubleValue()` of other Numbers is an uninterpreted floating-point conversion.
- `updateBlob`, `updateClob`, `updateBinaryStream`, `updateCharacterStream` and `updateAsciiStream` have no round-trip lemma. `getBlob` and `getClob` do not return a stored `Blob`/`Clob`. They build a new `BlobValue`/`ClobValue` from what `getBytes`/`getString` coerce the stored value to, and the stream getters wrap that new object. What comes back then depends on how the coercion turns a wrapper into bytes or a string, which is not part of this model (`RoundTrip.StreamWrappersNotReadBack` shows that the stored wrapper itself never comes back).
- The internals of `BlobValue` and `ClobValue`, and the reading of the streams they hand out, are not modelled. A wrapper is a value that records what it was built from, and a stream records which wrapper and which view it came from.
- The concrete row source and cursor positioning are not modelled. The row source is a fixed function from (column, requested class) to a value or a failure. Moving the cursor, column metadata and transaction state belong to the implementing subclass.
- Reads in the class do not see the class's own updates. Its `env` is fixed, so `UpdateNull(col)` followed by `GetObject(col)` returns what the row source gave before and leaves `wasNull` as that value says. A subclass whose `getObjectValue` reads the updated row would return null there and set the flag. The only place where a read sees a write is `RoundTrip.ReadBack`, the row source built from the update log that the round-trip lemmas use.
- The real `updateObject` is abstract in this class. It is modelled as an append-only log that never fails, so failures raised by a row that cannot be updated are not modelled.
- Null arguments are excluded by the types: a null `Class` passed to `getObject(int, Class)`, and a null stream or reader passed to a stream updater. With a null `Class`, Java throws `NullPointerException` only after line 642 has written the flag: from `type.isInstance` for a non-null extracted value, and from `type.cast` at line 644 for a null one. For `updateAsciiStream` a null stream makes the `InputStreamReader` constructor throw `NullPointerException`. `updateBinaryStream` and `updateCharacterStream` pass the null on to the `BlobValue` and `ClobValue` constructors, which are not part of this model.
- The identity of a class loader is only a number: which loader defines which class, and the delegation between loaders, are not modelled beyond what the `Hierarchy` parameter says.
- Column values are limited to the listed kinds, plus `Other` for an instance of any class outside the list. A `Blob` or `Clob` column value built by this layer is a PL/Java `BlobValue`/`ClobValue`. The runtime class of `Array` and `Ref` values is represented by the interface itself.
- Which classes a class is assignable to, beyond the facts listed above, is left to the `Hierarchy` parameter rather than spelled out per class, because it depends on the JVM and on the classes loaded.
- The wording of a `ClassCastException` message belongs to the JVM; only the two class names are kept.
- The members `ObjectResultSet` inherits from `AbstractResultSet` (access by column label, cursor movement, and so on) are not part of this model.
