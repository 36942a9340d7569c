/** Rust's `#[repr(C)]` struct layout: fields in declaration order, each at the next offset that
    is a multiple of its alignment, and the whole struct padded to a multiple of the largest
    alignment. This is what `std::mem::size_of::<T>()` returns for the renderer's GPU structs. */
module ReprC {

  /** The alignments of Rust's primitive types: powers of two up to 16. */
  type Alignment = a: nat | a == 1 || a == 2 || a == 4 || a == 8 || a == 16 witness 1

  /** A field of a repr(C) struct: its size and alignment in bytes. */
  datatype Field = Field(size: nat, align: Alignment)

  /** `[f32; n]`: n four-byte floats, aligned to 4. */
  function F32s(n: nat): Field { Field(4 * n, 4) }

  /** `u32`. */
  const U32: Field := Field(4, 4)

  /** The least multiple of a that is at least n. */
  function AlignUp(n: nat, a: Alignment): (r: nat)
    ensures r % a == 0 && n <= r < n + a
  {
    if n % a == 0 then n else n + (a - n % a)
  }

  /** The offset of each field when the first one may start at `start`. */
  function Offsets(fields: seq<Field>, start: nat): (offs: seq<nat>)
    ensures |offs| == |fields|
    ensures forall i :: 0 <= i < |fields| ==> offs[i] % fields[i].align == 0 && start <= offs[i]
    ensures forall i :: 0 < i < |fields| ==> offs[i - 1] + fields[i - 1].size <= offs[i]
    decreases |fields|
  {
    if fields == [] then []
    else
      var here := AlignUp(start, fields[0].align);
      [here] + Offsets(fields[1..], here + fields[0].size)
  }

  /** The first byte after the last field (start when there is none). */
  function EndOf(fields: seq<Field>, start: nat): nat
    decreases |fields|
  {
    if fields == [] then start
    else EndOf(fields[1..], AlignUp(start, fields[0].align) + fields[0].size)
  }

  /** The struct's alignment: the largest field alignment, 1 for an empty struct. */
  function AlignOf(fields: seq<Field>): (a: Alignment)
    ensures forall i :: 0 <= i < |fields| ==> fields[i].align <= a
  {
    if fields == [] then 1
    else
      var rest := AlignOf(fields[1..]);
      assert forall i :: 1 <= i < |fields| ==> fields[i] == fields[1..][i - 1];
      if fields[0].align > rest then fields[0].align else rest
  }

  /** `size_of` of a repr(C) struct with these fields. */
  function SizeOf(fields: seq<Field>): nat {
    AlignUp(EndOf(fields, 0), AlignOf(fields))
  }

  /** Every field is a run of four-byte words. */
  predicate WordFields(fields: seq<Field>) {
    forall i :: 0 <= i < |fields| ==> fields[i].align == 4 && fields[i].size % 4 == 0
  }

  lemma WordFieldsTail(fields: seq<Field>)
    requires WordFields(fields) && |fields| > 0
    ensures WordFields(fields[1..])
  {
    forall i | 0 <= i < |fields[1..]| ensures fields[1..][i].align == 4 && fields[1..][i].size % 4 == 0 {
      assert fields[1..][i] == fields[i + 1];
    }
  }

  /** A struct made only of four-byte words has no padding: each field starts where the previous
      one ends. */
  lemma {:induction false} WordFieldsUnpadded(fields: seq<Field>, start: nat)
    requires WordFields(fields) && start % 4 == 0
    ensures |fields| > 0 ==> Offsets(fields, start)[0] == start
    ensures forall i :: 0 < i < |fields| ==> Offsets(fields, start)[i] == Offsets(fields, start)[i - 1] + fields[i - 1].size
  {
    if fields != [] {
      assert AlignUp(start, 4) == start;
      var next := start + fields[0].size;
      WordFieldsTail(fields);
      WordFieldsUnpadded(fields[1..], next);
      var offs := Offsets(fields, start);
      assert offs == [start] + Offsets(fields[1..], next);
      forall i | 0 < i < |fields| ensures offs[i] == offs[i - 1] + fields[i - 1].size {
        if i > 1 {
          assert fields[i - 1] == fields[1..][i - 2];
        }
      }
    }
  }

  /** ... and the struct ends where its last field does, on a word boundary. */
  lemma {:induction false} WordFieldsEnd(fields: seq<Field>, start: nat)
    requires WordFields(fields) && start % 4 == 0
    ensures EndOf(fields, start) == if fields == [] then start else Offsets(fields, start)[|fields| - 1] + fields[|fields| - 1].size
    ensures EndOf(fields, start) % 4 == 0
  {
    if fields != [] {
      assert AlignUp(start, 4) == start;
      var next := start + fields[0].size;
      WordFieldsTail(fields);
      WordFieldsEnd(fields[1..], next);
      assert EndOf(fields, start) == EndOf(fields[1..], next);
      var offs := Offsets(fields, start);
      assert offs == [start] + Offsets(fields[1..], next);
      if |fields| > 1 {
        var last := |fields| - 1;
        assert fields[last] == fields[1..][last - 1];
        assert offs[last] == Offsets(fields[1..], next)[last - 1];
      }
    }
  }

  /** Such a struct is aligned to 4 and its size is where its last field ends. */
  lemma {:induction false} WordStructSize(fields: seq<Field>)
    requires WordFields(fields) && |fields| > 0
    ensures AlignOf(fields) == 4
    ensures SizeOf(fields) == EndOf(fields, 0)
  {
    WordFieldsEnd(fields, 0);
    if |fields| > 1 {
      WordFieldsTail(fields);
      WordStructSize(fields[1..]);
    }
  }
}
