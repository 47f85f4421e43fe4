/** Writing then reading a column. The row behind updateObject is not part
    of this layer; here it is replaced by a row source that answers each
    column with the last value forwarded to it. Under coercions that leave
    values of the requested type alone, the primitive updaters, the
    reference updaters whose getter is getValue followed by a cast, and
    updateNull are each followed by their getter returning what was
    written; bytes and strings come back through getBlob and getClob as
    wrappers over exactly what was written. The large-object and stream
    updaters have no such round trip: getBlob and getClob build a new
    wrapper from getBytes and getString rather than return the stored one. */
module RoundTrip {
  import opened JdbcValues
  import opened Extraction

  /** The value last forwarded to `col`, if any. */
  function LastWritten(updates: seq<(int, Value)>, col: int): (r: Option<Value>)
    ensures r.None? <==> forall i :: 0 <= i < |updates| ==> updates[i].0 != col
    ensures r.Some? ==> exists i :: 0 <= i < |updates| && updates[i] == (col, r.value) && IsLastFor(updates, col, i)
    decreases |updates|
  {
    if updates == [] then None
    else if updates[|updates| - 1].0 == col then
      assert IsLastFor(updates, col, |updates| - 1);
      Some(updates[|updates| - 1].1)
    else
      var r := LastWritten(updates[..|updates| - 1], col);
      assert r.Some? ==> exists i :: 0 <= i < |updates| && updates[i] == (col, r.value) && IsLastFor(updates, col, i) by {
        if r.Some? {
          var i :| 0 <= i < |updates| - 1 && updates[..|updates| - 1][i] == (col, r.value)
                   && IsLastFor(updates[..|updates| - 1], col, i);
          assert IsLastFor(updates, col, i);
        }
      }
      r
  }

  /** No update after the `i`th names `col`. */
  predicate IsLastFor(updates: seq<(int, Value)>, col: int, i: nat) {
    forall j :: i < j < |updates| ==> updates[j].0 != col
  }

  /** A row source over the updated row: an unwritten column reads as null. */
  function ReadBack(updates: seq<(int, Value)>, c: Coercions, numbers: NumberConversions, h: Hierarchy): Env {
    Env((col: int, t: Option<JavaClass>) =>
          var w := LastWritten(updates, col); Ok(if w.Some? then w.value else Null),
        c, numbers, h)
  }

  /** The basic coercion returns a value that already has the requested type unchanged. */
  ghost predicate KeepsInstances(h: Hierarchy, c: Coercions) {
    forall t, v :: OfType(h, t, v) ==> c.basic(t, v) == Ok(v)
  }

  /** The numeric coercion returns a Number it is given unchanged. */
  ghost predicate KeepsNumbers(c: Coercions) {
    forall p, n :: c.numeric(p, Num(n)) == Ok(Some(n))
  }

  /** A write to one column leaves what every other column reads. */
  lemma OtherColumnsUnaffected(updates: seq<(int, Value)>, col: int, other: int, v: Value)
    requires other != col
    ensures LastWritten(updates + [(col, v)], other) == LastWritten(updates, other)
  {
    assert (updates + [(col, v)])[..|updates|] == updates;
  }

  /** updateX(col, x) for a reference type whose getter is getValue
      followed by a cast (updateArray, updateBigDecimal, updateBytes,
      updateDate, updateRef, updateString, updateTime, updateTimestamp)
      then that getter returns x. */
  lemma ReferenceRoundTrip(updates: seq<(int, Value)>, c: Coercions, numbers: NumberConversions, h: Hierarchy,
                           col: int, t: JavaClass, x: Value)
    requires KeepsInstances(h, c) && OfType(h, t, x)
    ensures TypedOf(ReadBack(updates + [(col, x)], c, numbers, h), col, t) == Ok(x)
  {
  }

  /** updateBoolean then getBoolean. */
  lemma BooleanRoundTrip(updates: seq<(int, Value)>, c: Coercions, numbers: NumberConversions, h: Hierarchy,
                         col: int, x: bool)
    requires KeepsInstances(h, c)
    ensures BooleanOf(ReadBack(updates + [(col, Boolean(x))], c, numbers, h), col) == Ok(x)
  {
    ReferenceRoundTrip(updates, c, numbers, h, col, BooleanClass, Boolean(x));
  }

  /** updateByte then getByte. */
  lemma ByteRoundTrip(updates: seq<(int, Value)>, c: Coercions, numbers: NumberConversions, h: Hierarchy,
                      col: int, x: int8)
    requires KeepsNumbers(c)
    ensures ByteOf(ReadBack(updates + [(col, Num(ByteBox(x)))], c, numbers, h), col) == Ok(x)
  {
  }

  /** updateShort then getShort. */
  lemma ShortRoundTrip(updates: seq<(int, Value)>, c: Coercions, numbers: NumberConversions, h: Hierarchy,
                       col: int, x: int16)
    requires KeepsNumbers(c)
    ensures ShortOf(ReadBack(updates + [(col, Num(ShortBox(x)))], c, numbers, h), col) == Ok(x)
  {
  }

  /** updateInt then getInt. */
  lemma IntRoundTrip(updates: seq<(int, Value)>, c: Coercions, numbers: NumberConversions, h: Hierarchy,
                     col: int, x: int32)
    requires KeepsNumbers(c)
    ensures IntOf(ReadBack(updates + [(col, Num(IntegerBox(x)))], c, numbers, h), col) == Ok(x)
  {
  }

  /** updateLong then getLong. */
  lemma LongRoundTrip(updates: seq<(int, Value)>, c: Coercions, numbers: NumberConversions, h: Hierarchy,
                      col: int, x: int64)
    requires KeepsNumbers(c)
    ensures LongOf(ReadBack(updates + [(col, Num(LongBox(x)))], c, numbers, h), col) == Ok(x)
  {
  }

  /** updateFloat then getFloat, and updateDouble then getDouble, keep the bits. */
  lemma FloatingRoundTrip(updates: seq<(int, Value)>, c: Coercions, numbers: NumberConversions, h: Hierarchy,
                          col: int, f: bv32, d: bv64)
    requires KeepsNumbers(c)
    ensures FloatOf(ReadBack(updates + [(col, Num(FloatBox(f)))], c, numbers, h), col) == Ok(f)
    ensures DoubleOf(ReadBack(updates + [(col, Num(DoubleBox(d)))], c, numbers, h), col) == Ok(d)
  {
  }

  /** updateLong then getInt keeps the low 32 bits and getByte the low 8:
      the narrowing is two's-complement truncation, with no overflow check. */
  lemma NarrowingAfterWideWrite(updates: seq<(int, Value)>, c: Coercions, numbers: NumberConversions, h: Hierarchy,
                                col: int, x: int64)
    requires KeepsNumbers(c)
    ensures var env := ReadBack(updates + [(col, Num(LongBox(x)))], c, numbers, h);
            && IntOf(env, col) == Ok(ToInt32(x as int))
            && ByteOf(env, col) == Ok(ToInt8(x as int))
            && (-0x8000_0000 <= x as int < 0x8000_0000 ==> IntOf(env, col).value as int == x as int)
  {
  }

  /** updateBytes then getBlob: a BlobValue over exactly the bytes written;
      updateString then getClob: a ClobValue over exactly the string written. */
  lemma LargeObjectRoundTrip(updates: seq<(int, Value)>, c: Coercions, numbers: NumberConversions, h: Hierarchy,
                             col: int, bytes: seq<bv8>, text: string)
    requires KeepsInstances(h, c)
    ensures BlobOf(ReadBack(updates + [(col, Bytes(bytes))], c, numbers, h), col) == Ok(Some(BlobOfBytes(bytes)))
    ensures ClobOf(ReadBack(updates + [(col, Str(text))], c, numbers, h), col) == Ok(Some(ClobOfString(text)))
  {
    ReferenceRoundTrip(updates, c, numbers, h, col, ByteArrayClass, Bytes(bytes));
    ReferenceRoundTrip(updates, c, numbers, h, col, StringClass, Str(text));
  }

  /** updateBlob or updateBinaryStream, then getBlob: the stored wrapper
      never comes back, since getBlob wraps what getBytes returned; the same
      for updateClob, updateCharacterStream or updateAsciiStream, then getClob. */
  lemma StreamWrappersNotReadBack(updates: seq<(int, Value)>, c: Coercions, numbers: NumberConversions, h: Hierarchy,
                                  col: int, s: InputStreamRef, reader: ReaderRef, length: int32)
    ensures BlobOf(ReadBack(updates + [(col, Blob(BlobOfStream(s, length)))], c, numbers, h), col)
              != Ok(Some(BlobOfStream(s, length)))
    ensures ClobOf(ReadBack(updates + [(col, Clob(ClobOfReader(reader, length)))], c, numbers, h), col)
              != Ok(Some(ClobOfReader(reader, length)))
  {
  }

  /** updateNull then getObject: null comes back. */
  lemma NullRoundTrip(updates: seq<(int, Value)>, c: Coercions, numbers: NumberConversions, h: Hierarchy, col: int)
    ensures ObjectValue(ReadBack(updates + [(col, Null)], c, numbers, h), col) == Ok(Null)
  {
  }
}
