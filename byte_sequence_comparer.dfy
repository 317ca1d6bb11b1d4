/**
 * ByteSequenceComparer: element-wise equality of byte arrays, used for
 * public keys, content hashes and other binary blobs. An immutable array is
 * modelled by its underlying array; null is the default (uninitialised) value.
 */
module ByteSequenceComparer {
  import opened Wrappers

  /** Same contents, with null equal only to null. */
  ghost predicate SameBytes(x: array?<bv8>, y: array?<bv8>)
    reads x, y
  {
    (x == null && y == null) || (x != null && y != null && x[..] == y[..])
  }

  /** Equality of the elements in two ranges of the same length. */
  ghost predicate SameRange(left: array<bv8>, leftStart: int, right: array<bv8>, rightStart: int, length: int)
    reads left, right
    requires length <= 0 || (0 <= leftStart && leftStart + length <= left.Length && 0 <= rightStart && rightStart + length <= right.Length)
  {
    length <= 0 || left[leftStart..leftStart + length] == right[rightStart..rightStart + length]
  }

  /** Equals on immutable arrays: the same array, or two initialised arrays of equal contents. */
  method EqualsImmutable(x: array?<bv8>, y: array?<bv8>) returns (r: bool)
    ensures r <==> x == y || SameBytes(x, y)
    ensures r <==> SameBytes(x, y)
  {
    if x == y {
      return true;
    }
    if x == null || y == null || x.Length != y.Length {
      return false;
    }
    for i := 0 to x.Length
      invariant x[..i] == y[..i]
    {
      if x[i] != y[i] {
        return false;
      }
      assert x[..i + 1] == x[..i] + [x[i]];
      assert y[..i + 1] == y[..i] + [y[i]];
    }
    assert x[..] == x[..x.Length];
    assert y[..] == y[..y.Length];
    return true;
  }

  /** The exception an element access outside an array throws. */
  datatype RangeError = IndexOutOfRange

  /**
   * What comparing the elements from offset `i` on gives: false at the first
   * mismatch, true after `length` matches, and an out-of-range access when one
   * of the two indices leaves its array before either of those happens.
   */
  function CompareFrom(left: array<bv8>, leftStart: int, right: array<bv8>, rightStart: int, length: int, i: nat): Result<bool, RangeError>
    reads left, right
    decreases length - i
  {
    if i >= length then Success(true)
    else if !(0 <= leftStart + i < left.Length && 0 <= rightStart + i < right.Length) then Failure(IndexOutOfRange)
    else if left[leftStart + i] != right[rightStart + i] then Success(false)
    else CompareFrom(left, leftStart, right, rightStart, length, i + 1)
  }

  /**
   * Equals on two ranges. With a null argument the answer is whether both are
   * null; the same range of the same array is equal without looking at it;
   * otherwise the elements are compared in order, and an index outside an
   * array throws unless an earlier mismatch has already answered false.
   */
  method EqualsRange(left: array?<bv8>, leftStart: int, right: array?<bv8>, rightStart: int, length: int)
    returns (r: Result<bool, RangeError>)
    ensures left == null || right == null ==> r == Success(left == null && right == null)
    ensures left != null && right != null && left == right && leftStart == rightStart ==> r == Success(true)
    ensures left != null && right != null && !(left == right && leftStart == rightStart) ==>
      r == CompareFrom(left, leftStart, right, rightStart, length, 0)
  {
    if left == null || right == null {
      return Success(left == right);
    }
    if left == right && leftStart == rightStart {
      return Success(true);
    }
    var i := 0;
    while i < length
      invariant 0 <= i && (length > 0 ==> i <= length)
      invariant CompareFrom(left, leftStart, right, rightStart, length, 0) == CompareFrom(left, leftStart, right, rightStart, length, i)
      decreases length - i
    {
      if !(0 <= leftStart + i < left.Length && 0 <= rightStart + i < right.Length) {
        return Failure(IndexOutOfRange);
      }
      if left[leftStart + i] != right[rightStart + i] {
        return Success(false);
      }
      i := i + 1;
    }
    return Success(true);
  }

  /** Offset j lies inside both ranges' arrays and holds the same byte in each. */
  ghost predicate AgreeAt(left: array<bv8>, leftStart: int, right: array<bv8>, rightStart: int, j: int)
    reads left, right
  {
    0 <= leftStart + j < left.Length && 0 <= rightStart + j < right.Length && left[leftStart + j] == right[rightStart + j]
  }

  /** Within bounds nothing throws, and the answer is the equality of the two ranges. */
  lemma {:induction false} CompareInBounds(left: array<bv8>, leftStart: int, right: array<bv8>, rightStart: int, length: int, i: nat)
    requires length <= 0 || (0 <= leftStart && leftStart + length <= left.Length && 0 <= rightStart && rightStart + length <= right.Length)
    requires length <= 0 || i <= length
    requires forall j :: 0 <= j < i && j < length ==> AgreeAt(left, leftStart, right, rightStart, j)
    ensures CompareFrom(left, leftStart, right, rightStart, length, i) == Success(SameRange(left, leftStart, right, rightStart, length))
    decreases length - i
  {
    if i >= length {
      if length > 0 {
        var leftRange, rightRange := left[leftStart..leftStart + length], right[rightStart..rightStart + length];
        forall j | 0 <= j < length
          ensures leftRange[j] == rightRange[j]
        {
          assert AgreeAt(left, leftStart, right, rightStart, j);
        }
        assert leftRange == rightRange;
      }
    } else if left[leftStart + i] != right[rightStart + i] {
      assert left[leftStart..leftStart + length][i] != right[rightStart..rightStart + length][i];
    } else {
      assert AgreeAt(left, leftStart, right, rightStart, i);
      CompareInBounds(left, leftStart, right, rightStart, length, i + 1);
    }
  }

  /**
   * A mismatch at offset k before either index leaves its array answers false
   * from any earlier offset, however far `length` reaches.
   */
  lemma {:induction false} EarlyMismatchAnswersFalse(left: array<bv8>, leftStart: int, right: array<bv8>, rightStart: int,
                                                     length: int, k: nat, i: nat)
    requires i <= k < length
    requires forall j :: i <= j < k ==> AgreeAt(left, leftStart, right, rightStart, j)
    requires 0 <= leftStart + k < left.Length && 0 <= rightStart + k < right.Length
    requires left[leftStart + k] != right[rightStart + k]
    ensures CompareFrom(left, leftStart, right, rightStart, length, i) == Success(false)
    decreases k - i
  {
    if i < k {
      assert AgreeAt(left, leftStart, right, rightStart, i);
      EarlyMismatchAnswersFalse(left, leftStart, right, rightStart, length, k, i + 1);
    }
  }

  /** Equals on arrays: the same reference, or two non-null arrays of equal contents. */
  method Equals(left: array?<bv8>, right: array?<bv8>) returns (r: bool)
    ensures r <==> SameBytes(left, right)
  {
    if left == right {
      return true;
    }
    if left == null || right == null || left.Length != right.Length {
      return false;
    }
    for i := 0 to left.Length
      invariant forall j :: 0 <= j < i ==> left[j] == right[j]
    {
      if left[i] != right[i] {
        return false;
      }
    }
    return true;
  }

  /** The array equality is an equivalence relation. */
  lemma SameBytesIsEquivalence(x: array?<bv8>, y: array?<bv8>, z: array?<bv8>)
    ensures SameBytes(x, x)
    ensures SameBytes(x, y) <==> SameBytes(y, x)
    ensures SameBytes(x, y) && SameBytes(y, z) ==> SameBytes(x, z)
  {
  }

  /** Whole arrays of the same length are equal exactly when their full ranges are. */
  lemma SameBytesIsFullRange(x: array<bv8>, y: array<bv8>)
    requires x.Length == y.Length
    ensures SameBytes(x, y) <==> SameRange(x, 0, y, 0, x.Length)
  {
    assert x[0..x.Length] == x[..];
    assert y[0..y.Length] == y[..];
  }
}
