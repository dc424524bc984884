/** The forward-only cursor the session decodes notification payloads with.
    ByteReader's own source is not part of this model; what the session
    relies on is stated here as its contract: binding new data puts the
    cursor back at offset 0, and `getBytes(n)` hands out the next `n` bytes
    and advances the cursor by `n`. */
module ByteReading {
  import opened MyoConstants

  class ByteReader {
    var byteData: seq<Byte>
    var offset: nat

    ghost predicate Valid()
      reads this
    {
      offset <= |byteData|
    }

    /** Bytes not consumed yet. */
    function Remaining(): (n: nat)
      reads this
      requires Valid()
      ensures n + offset == |byteData|
    {
      |byteData| - offset
    }

    constructor ()
      ensures Valid() && byteData == [] && offset == 0
    {
      byteData := [];
      offset := 0;
    }

    /** `byteReader.byteData = data`. */
    method SetByteData(data: seq<Byte>)
      modifies this
      ensures Valid() && byteData == data && offset == 0
    {
      byteData := data;
      offset := 0;
    }

    /** `byteReader.getBytes(n)`: the next `n` bytes. The samples it yields
        are the byte values; their conversion to floats is not modelled. */
    method GetBytes(n: nat) returns (r: seq<Byte>)
      requires Valid() && n <= Remaining()
      modifies this`offset
      ensures Valid() && offset == old(offset) + n
      ensures r == byteData[old(offset)..offset]
    {
      r := byteData[offset..offset + n];
      offset := offset + n;
    }
  }
}
