/**
 * The input of a struct column writer: a row block, its per-position null flags, and the
 * null-suppressed field blocks handed to the field writers (the rows where the struct
 * itself is null removed).
 */
module OrcBlocks {

  /** A value of a field block; a field may itself be null, which its own writer records. */
  datatype FieldValue = Null | Value(v: int)

  /**
   * A row block: `isNull[p]` says whether the struct at position `p` is null and
   * `fieldBlocks[f][p]` is field `f` at position `p`.
   */
  datatype RowBlock = RowBlock(isNull: seq<bool>, fieldBlocks: seq<seq<FieldValue>>) {
    predicate WellFormed() {
      forall f :: 0 <= f < |fieldBlocks| ==> |fieldBlocks[f]| == |isNull|
    }

    function PositionCount(): nat { |isNull| }
  }

  /** The booleans a writer puts in its present stream for a block: `true` for each non-null position. */
  function PresentBits(isNull: seq<bool>): (r: seq<bool>)
    ensures |r| == |isNull|
    ensures forall p :: 0 <= p < |isNull| ==> r[p] == !isNull[p]
  {
    seq(|isNull|, p requires 0 <= p < |isNull| => !isNull[p])
  }

  /** The number of `true`s in a boolean sequence. */
  function CountTrue(s: seq<bool>): nat
  {
    if s == [] then 0 else CountTrue(s[..|s| - 1]) + (if s[|s| - 1] then 1 else 0)
  }

  /** The number of non-null positions of a block. */
  function NonNullCount(isNull: seq<bool>): nat
  {
    CountTrue(PresentBits(isNull))
  }

  predicate AllNull(isNull: seq<bool>)
  {
    forall p :: 0 <= p < |isNull| ==> isNull[p]
  }

  lemma {:induction false} CountTrueAppend(a: seq<bool>, b: seq<bool>)
    ensures CountTrue(a + b) == CountTrue(a) + CountTrue(b)
  {
    if b == [] {
      assert a + b == a;
    } else {
      CountTrueAppend(a, b[..|b| - 1]);
      assert (a + b)[..|a + b| - 1] == a + b[..|b| - 1];
    }
  }

  lemma {:induction false} CountTrueBound(s: seq<bool>)
    ensures CountTrue(s) <= |s|
    ensures CountTrue(s) == 0 <==> forall p :: 0 <= p < |s| ==> !s[p]
  {
    if s != [] {
      CountTrueBound(s[..|s| - 1]);
      assert forall p :: 0 <= p < |s| - 1 ==> s[..|s| - 1][p] == s[p];
    }
  }

  /** A block has no non-null position exactly when every position is null. */
  lemma NonNullCountZero(isNull: seq<bool>)
    ensures NonNullCount(isNull) <= |isNull|
    ensures NonNullCount(isNull) == 0 <==> AllNull(isNull)
  {
    CountTrueBound(PresentBits(isNull));
  }

  lemma PresentBitsPrefix(isNull: seq<bool>, k: nat)
    requires k < |isNull|
    ensures PresentBits(isNull[..k + 1]) == PresentBits(isNull[..k]) + [!isNull[k]]
  {
  }

  /**
   * `getNullSuppressedRowFieldsFromBlock` for one field: the field's values at the
   * positions where the struct is not null, in position order.
   */
  function NullSuppressed(isNull: seq<bool>, column: seq<FieldValue>): seq<FieldValue>
    requires |column| == |isNull|
  {
    if isNull == [] then []
    else
      var n := |isNull| - 1;
      NullSuppressed(isNull[..n], column[..n]) + (if isNull[n] then [] else [column[n]])
  }

  /** The null-suppressed blocks of every field of a block, in field order. */
  function NullSuppressedFields(block: RowBlock): (r: seq<seq<FieldValue>>)
    requires block.WellFormed()
    ensures |r| == |block.fieldBlocks|
    ensures forall f :: 0 <= f < |r| ==> r[f] == NullSuppressed(block.isNull, block.fieldBlocks[f])
  {
    seq(|block.fieldBlocks|, f requires 0 <= f < |block.fieldBlocks| =>
      NullSuppressed(block.isNull, block.fieldBlocks[f]))
  }

  /** The positions where the struct is not null, in increasing order. */
  function NonNullPositions(isNull: seq<bool>): seq<nat>
  {
    if isNull == [] then []
    else
      var n := |isNull| - 1;
      NonNullPositions(isNull[..n]) + (if isNull[n] then [] else [n])
  }

  /**
   * The non-null positions are exactly the positions whose flag is false, each once, in
   * increasing order; there are `NonNullCount` of them.
   */
  lemma {:induction false} NonNullPositionsSpec(isNull: seq<bool>)
    ensures var ps := NonNullPositions(isNull);
      && |ps| == NonNullCount(isNull)
      && (forall j :: 0 <= j < |ps| ==> ps[j] < |isNull| && !isNull[ps[j]])
      && (forall j, k :: 0 <= j < k < |ps| ==> ps[j] < ps[k])
      && (forall p :: 0 <= p < |isNull| && !isNull[p] ==> p in ps)
  {
    if isNull != [] {
      var n := |isNull| - 1;
      var init := isNull[..n];
      NonNullPositionsSpec(init);
      assert PresentBits(isNull)[..n] == PresentBits(init);
      var ps := NonNullPositions(isNull);
      var ips := NonNullPositions(init);
      assert forall j :: 0 <= j < |ips| ==> ps[j] == ips[j];
      forall p | 0 <= p < |isNull| && !isNull[p]
        ensures p in ps
      {
        if p < n {
          assert init[p] == isNull[p];
          assert p in ips;
        } else {
          assert ps[|ps| - 1] == n;
        }
      }
    }
  }

  /**
   * Child `f` receives, in order, exactly field `f`'s values at the non-null positions of
   * the struct: the null-suppressed block is the field block read at `NonNullPositions`.
   */
  lemma {:induction false} NullSuppressedSpec(isNull: seq<bool>, column: seq<FieldValue>)
    requires |column| == |isNull|
    ensures var ps := NonNullPositions(isNull);
      && |NullSuppressed(isNull, column)| == |ps| == NonNullCount(isNull)
      && forall j :: 0 <= j < |ps| ==> ps[j] < |column| && NullSuppressed(isNull, column)[j] == column[ps[j]]
  {
    NonNullPositionsSpec(isNull);
    if isNull != [] {
      var n := |isNull| - 1;
      NullSuppressedSpec(isNull[..n], column[..n]);
      NonNullPositionsSpec(isNull[..n]);
      var ps := NonNullPositions(isNull);
      var ips := NonNullPositions(isNull[..n]);
      var s := NullSuppressed(isNull, column);
      var iss := NullSuppressed(isNull[..n], column[..n]);
      forall j | 0 <= j < |ps|
        ensures ps[j] < |column| && s[j] == column[ps[j]]
      {
        if j < |ips| {
          assert ps[j] == ips[j] && s[j] == iss[j];
          assert column[..n][ips[j]] == column[ips[j]];
        }
      }
    }
  }

  /**
   * The guard of `writeBlock`: field 0's null-suppressed block is empty exactly when every
   * position of the block is null.
   */
  lemma NullSuppressedEmpty(isNull: seq<bool>, column: seq<FieldValue>)
    requires |column| == |isNull|
    ensures |NullSuppressed(isNull, column)| == NonNullCount(isNull)
    ensures |NullSuppressed(isNull, column)| == 0 <==> AllNull(isNull)
  {
    NullSuppressedSpec(isNull, column);
    NonNullCountZero(isNull);
  }
}
