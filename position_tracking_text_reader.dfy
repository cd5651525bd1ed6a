/** A text reader wrapper that counts the characters read through it. */
module PositionTrackingTextReader {
  import opened Wrappers

  /** The reader being wrapped: a sequence of characters consumed from the
      front, as a `StringReader` does. */
  class BaseReader {
    const text: string
    var offset: nat
    var closed: bool

    ghost predicate Valid()
      reads this
    {
      offset <= |text|
    }

    constructor (text: string)
      ensures this.text == text && offset == 0 && !closed
      ensures Valid()
    {
      this.text := text;
      offset := 0;
      closed := false;
    }

    /** `Read()`: the next character, or -1 at the end. */
    method Read() returns (result: int)
      requires Valid()
      modifies this
      ensures Valid() && closed == old(closed)
      ensures old(offset) < |text| ==> result == text[old(offset)] as int && offset == old(offset) + 1
      ensures old(offset) == |text| ==> result == -1 && offset == old(offset)
    {
      if offset < |text| {
        result := text[offset] as int;
        offset := offset + 1;
      } else {
        result := -1;
      }
    }

    /** `Read(buffer, index, count)`: copies up to `count` characters into
        `buffer` from `index` on and returns how many were copied. */
    method ReadBlock(buffer: array<char>, index: nat, count: nat) returns (charsRead: nat)
      requires Valid()
      requires index + count <= buffer.Length
      modifies this, buffer
      ensures Valid() && closed == old(closed)
      ensures charsRead <= count
      ensures charsRead == if count <= |text| - old(offset) then count else |text| - old(offset)
      ensures offset == old(offset) + charsRead
      ensures buffer[index..index + charsRead] == text[old(offset)..offset]
      ensures buffer[..index] == old(buffer[..index]) && buffer[index + charsRead..] == old(buffer[index + charsRead..])
    {
      charsRead := if count <= |text| - offset then count else |text| - offset;
      var i := 0;
      while i < charsRead
        invariant 0 <= i <= charsRead
        invariant offset == old(offset) && closed == old(closed)
        invariant buffer[index..index + i] == text[offset..offset + i]
        invariant buffer[..index] == old(buffer[..index])
        invariant buffer[index + i..] == old(buffer[index + i..])
      {
        buffer[index + i] := text[offset + i];
        i := i + 1;
      }
      offset := offset + charsRead;
    }

    method Close()
      modifies this
      ensures closed && offset == old(offset)
    {
      closed := true;
    }
  }

  class PositionTrackingTextReader {
    const baseReader: BaseReader
    var position: int
    /** Where the base reader stood when it was wrapped. */
    ghost const start: nat

    /** `Position` counts exactly the characters read through this wrapper. */
    ghost predicate Valid()
      reads this, baseReader
    {
      baseReader.Valid() && start <= baseReader.offset && position == baseReader.offset - start
    }

    constructor (reader: BaseReader)
      requires reader.Valid()
      ensures baseReader == reader && position == 0
      ensures Valid()
    {
      baseReader := reader;
      position := 0;
      start := reader.offset;
    }

    /** `Position`. */
    function Position(): int
      reads this
    {
      position
    }

    /** `Read()`: the base reader's result; the position moves on by one
        unless the end was reached. */
    method Read() returns (result: int)
      requires Valid()
      modifies this, baseReader
      ensures Valid()
      ensures position == old(position) + (if result != -1 then 1 else 0)
      ensures result == -1 <==> old(baseReader.offset) == |baseReader.text|
      ensures result != -1 ==> result == baseReader.text[old(baseReader.offset)] as int
    {
      result := baseReader.Read();
      if result != -1 {
        position := position + 1;
      }
    }

    /** `Read(buffer, index, count)`: the base reader's count, added to the
        position when positive. */
    method ReadBlock(buffer: array<char>, index: nat, count: nat) returns (charsRead: nat)
      requires Valid()
      requires index + count <= buffer.Length
      modifies this, baseReader, buffer
      ensures Valid()
      ensures charsRead <= count
      ensures position == old(position) + charsRead
      ensures buffer[index..index + charsRead] == baseReader.text[old(baseReader.offset)..baseReader.offset]
    {
      charsRead := baseReader.ReadBlock(buffer, index, count);
      if charsRead > 0 {
        position := position + charsRead;
      }
    }

    /** `Close()` and `Dispose(true)` close the base reader. */
    method Close()
      requires Valid()
      modifies baseReader
      ensures Valid() && baseReader.closed
    {
      baseReader.Close();
    }
  }

  /** The construction: a null base reader is rejected. */
  method Create(reader: BaseReader?) returns (r: Result<PositionTrackingTextReader, string>)
    requires reader != null ==> reader.Valid()
    ensures r.Failure? <==> reader == null
    ensures r.Success? ==> fresh(r.value) && r.value.baseReader == reader && r.value.position == 0 && r.value.Valid()
  {
    if reader == null {
      return Failure("reader");
    }
    var tracker := new PositionTrackingTextReader(reader);
    return Success(tracker);
  }

  /** Reading the rest of the text one character at a time through a fresh
      wrapper yields that rest, and the position ends at its length. */
  method ReadToEnd(reader: PositionTrackingTextReader) returns (chars: string)
    requires reader.Valid() && reader.position == 0
    modifies reader, reader.baseReader
    ensures reader.Valid()
    ensures chars == reader.baseReader.text[reader.start..]
    ensures reader.position == |chars|
  {
    chars := "";
    var c := reader.Read();
    while c != -1
      invariant reader.Valid()
      invariant c != -1 ==> reader.baseReader.offset >= 1 && c == reader.baseReader.text[reader.baseReader.offset - 1] as int
      invariant chars == reader.baseReader.text[reader.start..reader.baseReader.offset - (if c != -1 then 1 else 0)]
      invariant c == -1 ==> reader.baseReader.offset == |reader.baseReader.text|
      decreases |reader.baseReader.text| - reader.baseReader.offset + (if c != -1 then 1 else 0)
    {
      chars := chars + [c as char];
      c := reader.Read();
    }
  }
}
