// Helpers of the crate's test suite: the property-test configuration, which runs fewer
// cases and keeps no failure files under the Miri interpreter, and the copy of an input
// into a buffer whose start is 64-byte aligned. The allocator's choice of address and the
// build's Miri setting are parameters.
module TestSupport {
  import opened Bits
  import opened Results

  /** Where a property-test runner keeps the inputs that made a test fail; the only kind
    * this model knows is the runner's default, files beside the sources. */
  datatype FailurePersistence = FileFailurePersistence

  /** The two settings of a property-test runner's configuration that the helper touches. */
  datatype ProptestConfig = ProptestConfig(cases: nat, failurePersistence: Option<FailurePersistence>)

  /** The runner's configuration with `n` cases and every other setting at its default. */
  function WithCases(n: nat): (config: ProptestConfig)
    ensures config.cases == n && config.failurePersistence.Some?
  {
    ProptestConfig(n, Some(FileFailurePersistence))
  }

  /** `miri_compatible_proptest_config`: 100 cases normally; under Miri one case and no
    * failure persistence, since the files would need the working directory, which the
    * interpreter's isolation hides. */
  method MiriCompatibleProptestConfig(miri: bool) returns (config: ProptestConfig)
    ensures !miri ==> config == WithCases(100)
    ensures miri ==> config.cases == 1 && config.failurePersistence.None?
  {
    config := WithCases(100);
    if miri {
      config := config.(cases := 1);
      config := config.(failurePersistence := None);
      return;
    }
  }

  /** The alignment the test buffers get: the size of `[[u64; 4]; 2]`, two arrays of four
    * 8-byte words. */
  const AlignSize: nat := 2 * 4 * 8

  /** How far past `start` the first `AlignSize`-aligned address lies. */
  function AlignOffset(start: nat): (offset: nat)
    ensures offset < AlignSize && (start + offset) % AlignSize == 0
  {
    (AlignSize - start % AlignSize) % AlignSize
  }

  /** No address between `start` and `start + AlignOffset(start)` is aligned: the offset
    * picks the first aligned position. */
  lemma AlignOffsetFirst(start: nat, k: nat)
    requires k < AlignOffset(start)
    ensures (start + k) % AlignSize != 0
  {
    assert start % AlignSize != 0;
    assert k + start % AlignSize < AlignSize;
    assert (start + k) % AlignSize == k + start % AlignSize;
  }

  /** `create_aligned_data`: a zero-filled buffer 64 bytes longer than the input, which
    * the allocator placed at `startAddr`, takes the input at its first 64-byte aligned
    * position; the bytes there are returned. The copy stays inside the buffer, starts
    * at an aligned address and returns the input unchanged. */
  method CreateAlignedData(input: seq<bv8>, startAddr: nat) returns (r: seq<bv8>, alignedAddr: nat)
    ensures r == input
    ensures alignedAddr % AlignSize == 0 && startAddr <= alignedAddr < startAddr + AlignSize
  {
    var alignSize := AlignSize;
    var padded := new bv8[|input| + alignSize](_ => 0);
    var alignOffset := (alignSize - startAddr % alignSize) % alignSize;
    assert alignOffset == AlignOffset(startAddr);
    // `copy_from_slice` into `padded[alignOffset..]`.
    for i := 0 to |input|
      invariant padded[alignOffset..alignOffset + i] == input[..i]
    {
      padded[alignOffset + i] := input[i];
      assert padded[alignOffset..alignOffset + i + 1] == padded[alignOffset..alignOffset + i] + [input[i]];
      assert input[..i + 1] == input[..i] + [input[i]];
    }
    r := padded[alignOffset..alignOffset + |input|];
    alignedAddr := startAddr + alignOffset;
  }
}
