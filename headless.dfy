/**
 * The headless compute test: 256 uint32 values 1..256 are uploaded, a
 * compute shader reduces them to one uint32, and the test passes when the
 * value read back equals the sum computed on the CPU.
 */
module HeadlessTest {
  import opened CTypes

  /** The number of inputs, which is also the thread-group size of the reduction shader. */
  const NUM_INPUT_VALUES: nat := 256

  /** Byte sizes of the input, output and readback buffers. */
  const INPUT_BUFFER_BYTES: nat := SIZEOF_UINT32 * NUM_INPUT_VALUES
  const OUTPUT_BUFFER_BYTES: nat := SIZEOF_UINT32
  const READBACK_BUFFER_BYTES: nat := OUTPUT_BUFFER_BYTES

  /** Sum of a sequence, over its prefixes. */
  function Sum(s: seq<int>): int
  {
    if |s| == 0 then 0 else Sum(s[..|s| - 1]) + s[|s| - 1]
  }

  /** The input buffer holds one uint32 per value; the readback copy is exactly the one-uint32 output. */
  lemma BufferSizes()
    ensures INPUT_BUFFER_BYTES == 1024 && INPUT_BUFFER_BYTES == NUM_INPUT_VALUES * SIZEOF_UINT32
    ensures READBACK_BUFFER_BYTES == OUTPUT_BUFFER_BYTES == 4
  {
  }

  /**
   * Fills the input array with 1, 2, ..., 256 and accumulates their sum in
   * a uint32; the sum is 256 * 257 / 2 = 32896 and never wraps.
   */
  method FillInput() returns (inputData: array<int>, expectedResult: int)
    ensures fresh(inputData) && inputData.Length == NUM_INPUT_VALUES
    ensures forall i :: 0 <= i < inputData.Length ==> inputData[i] == i + 1 && IsU32(inputData[i])
    ensures expectedResult == Sum(inputData[..])
    ensures expectedResult == NUM_INPUT_VALUES * (NUM_INPUT_VALUES + 1) / 2 == 32896
  {
    inputData := new int[NUM_INPUT_VALUES];
    expectedResult := 0;
    for i := 0 to NUM_INPUT_VALUES
      invariant forall k :: 0 <= k < i ==> inputData[k] == k + 1
      invariant expectedResult == Sum(inputData[..i])
      invariant 2 * expectedResult == i * (i + 1)
    {
      inputData[i] := U32(i + 1);
      assert inputData[..i + 1][..i] == inputData[..i];
      MulLe(i + 1, NUM_INPUT_VALUES, i + 2);
      MulLe(i + 2, NUM_INPUT_VALUES + 1, NUM_INPUT_VALUES);
      expectedResult := U32(expectedResult + inputData[i]);
    }
    assert inputData[..NUM_INPUT_VALUES] == inputData[..];
  }

  /**
   * RunTest: fails early when the shader or the binding set cannot be
   * created; otherwise passes exactly when the value the shader wrote
   * (read back as `computedResult`) equals the CPU sum.
   */
  method RunTest(shaderCreated: bool, bindingSetCreated: bool, computedResult: int) returns (passed: bool)
    ensures passed <==> shaderCreated && bindingSetCreated && computedResult == 32896
  {
    if !shaderCreated {
      return false;
    }
    if !bindingSetCreated {
      return false;
    }
    var inputData, expectedResult := FillInput();
    passed := computedResult == expectedResult;
  }
}
