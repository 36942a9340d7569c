/** The light's uniform block: a position and a colour, each padded out to 16 bytes because
    uniform buffers place three-float vectors on 16-byte boundaries. */
module Lights {
  import opened Base
  import opened Cgmath
  import ReprC

  datatype LightUniform = LightUniform(position: Vec3, padding: u32, color: Vec3, padding2: u32)

  /** `LightUniform::new`: the position and colour as given, both paddings zero. */
  function New(position: Vec3, color: Vec3): (u: LightUniform)
    ensures u.position == position && u.color == color
    ensures u.padding == 0 && u.padding2 == 0
  {
    LightUniform(position, 0, color, 0)
  }

  /** `New` builds every light uniform whose paddings are zero, and only those. */
  lemma NewBuildsZeroPadded(u: LightUniform)
    ensures (u.padding == 0 && u.padding2 == 0) <==> New(u.position, u.color) == u
  {
  }

  /** The repr(C) fields: `[f32; 3]`, `u32`, `[f32; 3]`, `u32`. */
  const LIGHT_UNIFORM_FIELDS: seq<ReprC.Field> := [ReprC.F32s(3), ReprC.U32, ReprC.F32s(3), ReprC.U32]

  /** The position sits at 0, the first padding at 12, the colour at 16 and the second padding at
      28; the block is 32 bytes, so the colour and the block size are multiples of 16. */
  lemma Layout()
    ensures ReprC.Offsets(LIGHT_UNIFORM_FIELDS, 0) == [0, 12, 16, 28]
    ensures ReprC.SizeOf(LIGHT_UNIFORM_FIELDS) == 32
    ensures ReprC.Offsets(LIGHT_UNIFORM_FIELDS, 0)[2] % 16 == 0
    ensures ReprC.SizeOf(LIGHT_UNIFORM_FIELDS) % 16 == 0
  {
    var fields := LIGHT_UNIFORM_FIELDS;
    assert ReprC.WordFields(fields);
    ReprC.WordFieldsUnpadded(fields, 0);
    var offs := ReprC.Offsets(fields, 0);
    assert offs[0] == 0;
    assert offs[1] == offs[0] + fields[0].size == 12;
    assert offs[2] == offs[1] + fields[1].size == 16;
    assert offs[3] == offs[2] + fields[2].size == 28;
    ReprC.WordStructSize(fields);
    ReprC.WordFieldsEnd(fields, 0);
  }

  /** Without the first padding field the colour would start at byte 12, off the 16-byte grid. */
  lemma PaddingNeeded()
    ensures ReprC.Offsets([ReprC.F32s(3), ReprC.F32s(3)], 0)[1] == 12
  {
    var fields := [ReprC.F32s(3), ReprC.F32s(3)];
    assert ReprC.WordFields(fields);
    ReprC.WordFieldsUnpadded(fields, 0);
  }
}
