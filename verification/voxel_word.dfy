/**
 * The bit layout of a voxel word and of a light word.
 *
 * A voxel word is an unsigned 32-bit integer whose fields are selected by
 * masks: the block type (id) in 0x0000ffff, the rotation in 0x000f0000, the
 * y-rotation in 0x00f00000 and the growth stage in 0xff000000.  A light word
 * keeps the sunlight level in bits 12..15.
 *
 * Words are modelled as integers in [0, 2^32); every insert is defined by
 * re-packing the four fields, which is what `(word & ~mask) | (value & mask)`
 * computes on a 32-bit word.
 */
module VoxelWord {

  const ID_SPAN: nat := 0x1_0000        // 2^16: the id field holds 16 bits
  const ROTATION_SHIFT: nat := 0x1_0000  // the rotation field starts at bit 16
  const Y_ROTATION_SHIFT: nat := 0x10_0000  // the y-rotation field starts at bit 20
  const STAGE_SHIFT: nat := 0x100_0000   // the stage field starts at bit 24
  const WORD_SPAN: nat := 0x1_0000_0000  // 2^32
  const SUNLIGHT_SHIFT: nat := 0x1000    // sunlight starts at bit 12 of a light word

  /** An unsigned 32-bit word. */
  type Word = w: int | 0 <= w < 0x1_0000_0000

  /** The word whose four fields are the given (already range-checked) values. */
  function Pack(id: nat, rotation: nat, yRotation: nat, stage: nat): (w: Word)
    requires id < ID_SPAN && rotation < 16 && yRotation < 16 && stage < 256
  {
    id + rotation * ROTATION_SHIFT + yRotation * Y_ROTATION_SHIFT + stage * STAGE_SHIFT
  }

  function ExtractId(w: nat): (id: nat)
    ensures id < ID_SPAN
  {
    w % ID_SPAN
  }

  function ExtractRotation(w: nat): (r: nat)
    ensures r < 16
  {
    (w / ROTATION_SHIFT) % 16
  }

  function ExtractYRotation(w: nat): (r: nat)
    ensures r < 16
  {
    (w / Y_ROTATION_SHIFT) % 16
  }

  function ExtractStage(w: nat): (s: nat)
    ensures s < 256
  {
    (w / STAGE_SHIFT) % 256
  }

  /** Unpacking a packed word gives back its four fields. */
  lemma UnpackPack(id: nat, rotation: nat, yRotation: nat, stage: nat)
    requires id < ID_SPAN && rotation < 16 && yRotation < 16 && stage < 256
    ensures ExtractId(Pack(id, rotation, yRotation, stage)) == id
    ensures ExtractRotation(Pack(id, rotation, yRotation, stage)) == rotation
    ensures ExtractYRotation(Pack(id, rotation, yRotation, stage)) == yRotation
    ensures ExtractStage(Pack(id, rotation, yRotation, stage)) == stage
  {
    var w := Pack(id, rotation, yRotation, stage);
    var hi := rotation + yRotation * 16 + stage * 256;
    assert w == id + hi * ID_SPAN;
    assert w / ID_SPAN == hi;
    var hi2 := yRotation + stage * 16;
    assert w == (id + rotation * ROTATION_SHIFT) + hi2 * Y_ROTATION_SHIFT;
    assert w / Y_ROTATION_SHIFT == hi2;
    assert w == (id + rotation * ROTATION_SHIFT + yRotation * Y_ROTATION_SHIFT) + stage * STAGE_SHIFT;
    assert w / STAGE_SHIFT == stage;
  }

  /** Every 32-bit word is the packing of its own fields. */
  lemma PackUnpack(w: Word)
    ensures w == Pack(ExtractId(w), ExtractRotation(w), ExtractYRotation(w), ExtractStage(w))
  {
    var q := w / ID_SPAN;
    assert w == ExtractId(w) + q * ID_SPAN;
    assert w / ROTATION_SHIFT == q;
    var q2 := q / 16;
    assert q == ExtractRotation(w) + q2 * 16;
    assert w / Y_ROTATION_SHIFT == q2;
    var q3 := q2 / 16;
    assert q2 == ExtractYRotation(w) + q3 * 16;
    assert w / STAGE_SHIFT == q3;
    assert q3 < 256;
  }

  /** `insertID`: replace the id field, keep the others. */
  function InsertId(w: Word, id: nat): (r: Word)
    ensures ExtractId(r) == id % ID_SPAN
    ensures ExtractRotation(r) == ExtractRotation(w)
    ensures ExtractYRotation(r) == ExtractYRotation(w)
    ensures ExtractStage(r) == ExtractStage(w)
  {
    UnpackPack(id % ID_SPAN, ExtractRotation(w), ExtractYRotation(w), ExtractStage(w));
    Pack(id % ID_SPAN, ExtractRotation(w), ExtractYRotation(w), ExtractStage(w))
  }

  /** `insertRotation`: replace the rotation and y-rotation fields, keep the others. */
  function InsertRotation(w: Word, rotation: int, yRotation: int): (r: Word)
    ensures ExtractId(r) == ExtractId(w)
    ensures ExtractRotation(r) == rotation % 16
    ensures ExtractYRotation(r) == yRotation % 16
    ensures ExtractStage(r) == ExtractStage(w)
  {
    UnpackPack(ExtractId(w), rotation % 16, yRotation % 16, ExtractStage(w));
    Pack(ExtractId(w), rotation % 16, yRotation % 16, ExtractStage(w))
  }

  /** `insertStage`: replace the stage field, keep the others. */
  function InsertStage(w: Word, stage: nat): (r: Word)
    ensures ExtractId(r) == ExtractId(w)
    ensures ExtractRotation(r) == ExtractRotation(w)
    ensures ExtractYRotation(r) == ExtractYRotation(w)
    ensures ExtractStage(r) == stage % 256
  {
    UnpackPack(ExtractId(w), ExtractRotation(w), ExtractYRotation(w), stage % 256);
    Pack(ExtractId(w), ExtractRotation(w), ExtractYRotation(w), stage % 256)
  }

  /** Encoding the three fields into the zero word and decoding them gives them back. */
  lemma {:induction false} EncodeDecode(id: nat, rotation: nat, yRotation: nat, stage: nat)
    requires id < ID_SPAN && rotation < 16 && yRotation < 16 && stage < 256
    ensures var w := InsertStage(InsertRotation(InsertId(0, id), rotation, yRotation), stage);
      ExtractId(w) == id && ExtractRotation(w) == rotation
      && ExtractYRotation(w) == yRotation && ExtractStage(w) == stage
  {
    SmallMod(id, ID_SPAN);
    SmallMod(rotation, 16);
    SmallMod(yRotation, 16);
    SmallMod(stage, 256);
  }

  lemma SmallMod(a: nat, m: nat)
    requires a < m
    ensures a % m == a
  {
  }

  /** Inserting the fields a word already has gives the word back. */
  lemma InsertOwnFields(w: Word)
    ensures InsertId(w, ExtractId(w)) == w
    ensures InsertRotation(w, ExtractRotation(w), ExtractYRotation(w)) == w
    ensures InsertStage(w, ExtractStage(w)) == w
  {
    PackUnpack(w);
    assert ExtractId(w) % ID_SPAN == ExtractId(w);
    assert ExtractRotation(w) % 16 == ExtractRotation(w);
    assert ExtractYRotation(w) % 16 == ExtractYRotation(w);
    assert ExtractStage(w) % 256 == ExtractStage(w);
  }

  /** The sunlight level of a light word. */
  function ExtractSunlight(light: nat): (s: nat)
    ensures s < 16
  {
    (light / SUNLIGHT_SHIFT) % 16
  }

  /** `insert_sunlight(0, level)`: a light word holding only a sunlight level. */
  function SunlightOnly(level: nat): (light: Word)
    requires level < 16
    ensures ExtractSunlight(light) == level
    ensures light % SUNLIGHT_SHIFT == 0
  {
    level * SUNLIGHT_SHIFT
  }
}
