/**
 * `ChunkLoaderFeature.ChunkKey`: the immutable (world, chunk x, chunk z)
 * triple that identifies a claimed chunk, its `world:x:z` text form used for
 * persistence, and the block-to-chunk conversion.
 */
module ChunkKeys {
  import opened Optional
  import opened JavaText

  datatype ChunkKey = ChunkKey(worldName: string, x: Int32, z: Int32)

  /** `ChunkKey(Location)`: block coordinate `b >> 4`, which is the chunk whose 16 columns hold `b`. */
  function BlockToChunk(b: Int32): (c: Int32)
    ensures 16 * c <= b < 16 * c + 16
  {
    b / 16
  }

  /** Any chunk coordinate whose 16-wide span holds `b` is the one `BlockToChunk` gives. */
  lemma BlockToChunkUnique(b: Int32, c: int)
    requires 16 * c <= b < 16 * c + 16
    ensures c == BlockToChunk(b)
  {
  }

  /** The key of the chunk that holds block column (`blockX`, `blockZ`) of world `world`. */
  function KeyOfBlock(world: string, blockX: Int32, blockZ: Int32): (k: ChunkKey)
    ensures k.worldName == world
    ensures 16 * k.x <= blockX < 16 * k.x + 16 && 16 * k.z <= blockZ < 16 * k.z + 16
  {
    ChunkKey(world, BlockToChunk(blockX), BlockToChunk(blockZ))
  }

  /** `ChunkKey.toString()`: `worldName:x:z`. */
  function ToString(k: ChunkKey): string {
    k.worldName + ":" + IntToString(k.x) + ":" + IntToString(k.z)
  }

  /**
   * `ChunkKey.fromString(str)`: split at `:`; anything but exactly three parts,
   * or a coordinate that `Integer.parseInt` rejects, gives `None` (Java's null).
   */
  function FromString(s: string): (r: Option<ChunkKey>)
    ensures r.Some? ==> ':' !in r.value.worldName
  {
    var parts := Split(s, ':');
    if |parts| != 3 then None
    else
      match (ParseInt(parts[1]), ParseInt(parts[2]))
      case (Some(x), Some(z)) => Some(ChunkKey(parts[0], x, z))
      case _ => None
  }

  /** A text of three colon-free fields, the last one non-empty, splits into exactly those fields. */
  lemma {:induction false} SplitThreeFields(w: string, xs: string, zs: string)
    requires ':' !in w && ':' !in xs && ':' !in zs && zs != ""
    ensures Split(w + ":" + xs + ":" + zs, ':') == [w, xs, zs]
  {
    var s := w + ":" + xs + ":" + zs;
    assert s == w + [':'] + (xs + [':'] + zs);
    SplitFieldsFirst(w, ':', xs + [':'] + zs);
    SplitFieldsFirst(xs, ':', zs);
    assert SplitFields(s, ':') == [w, xs, zs];
    assert s[|w|] == ':';
  }

  /** Writing a key and reading it back gives the same key, provided the world name has no `:`. */
  lemma RoundTrip(k: ChunkKey)
    requires ':' !in k.worldName
    ensures FromString(ToString(k)) == Some(k)
  {
    IntToStringAlphabet(k.x, ':');
    IntToStringAlphabet(k.z, ':');
    SplitThreeFields(k.worldName, IntToString(k.x), IntToString(k.z));
    ParseIntOfIntToString(k.x);
    ParseIntOfIntToString(k.z);
  }

  /** Every key that `FromString` accepts is written back to text that reads as the same key. */
  lemma ParsedKeyReprints(s: string, k: ChunkKey)
    requires FromString(s) == Some(k)
    ensures FromString(ToString(k)) == Some(k)
  {
    RoundTrip(k);
  }

  /** On world names without `:` the text form tells keys apart. */
  lemma ToStringInjective(k1: ChunkKey, k2: ChunkKey)
    requires ':' !in k1.worldName && ':' !in k2.worldName
    requires ToString(k1) == ToString(k2)
    ensures k1 == k2
  {
    RoundTrip(k1);
    RoundTrip(k2);
  }

  /** Two fields are not a key: `split` must give exactly three parts. */
  lemma {:induction false} FromStringTwoFields(w: string, xs: string)
    requires ':' !in w && ':' !in xs && xs != ""
    ensures FromString(w + ":" + xs) == None
  {
    var s := w + ":" + xs;
    assert s == w + [':'] + xs;
    SplitFieldsFirst(w, ':', xs);
    assert s[|w|] == ':';
  }

  /** Four fields, the last one non-empty, are not a key either. */
  lemma {:induction false} FromStringFourFields(w: string, xs: string, zs: string, more: string)
    requires ':' !in w && ':' !in xs && ':' !in zs && ':' !in more && more != ""
    ensures FromString(w + ":" + xs + ":" + zs + ":" + more) == None
  {
    var s := w + ":" + xs + ":" + zs + ":" + more;
    assert s == w + [':'] + (xs + [':'] + (zs + [':'] + more));
    SplitFieldsFirst(w, ':', xs + [':'] + (zs + [':'] + more));
    SplitFieldsFirst(xs, ':', zs + [':'] + more);
    SplitFieldsFirst(zs, ':', more);
    assert SplitFields(s, ':') == [w, xs, zs, more];
    assert s[|w|] == ':';
  }

  /** Three fields whose middle one `parseInt` rejects are not a key. */
  lemma FromStringBadCoordinate(w: string, xs: string, zs: string)
    requires ':' !in w && ':' !in xs && ':' !in zs && zs != ""
    requires ParseInt(xs) == None
    ensures FromString(w + ":" + xs + ":" + zs) == None
  {
    SplitThreeFields(w, xs, zs);
  }

  /** Three fields whose last one `parseInt` rejects are not a key. */
  lemma FromStringBadLastCoordinate(w: string, xs: string, zs: string)
    requires ':' !in w && ':' !in xs && ':' !in zs && zs != ""
    requires ParseInt(zs) == None
    ensures FromString(w + ":" + xs + ":" + zs) == None
  {
    SplitThreeFields(w, xs, zs);
  }

  /**
   * Every text `FromString` accepts is the key's world name, two texts that
   * `parseInt` reads as its coordinates, all separated by `:`, and then
   * nothing but separators.
   */
  lemma FromStringAccepts(s: string, k: ChunkKey)
    requires FromString(s) == Some(k)
    ensures exists xs, zs, n: nat ::
      && s == k.worldName + ":" + xs + ":" + zs + Seps(':', n)
      && ParseInt(xs) == Some(k.x) && ParseInt(zs) == Some(k.z)
  {
    var parts := Split(s, ':');
    SplitJoin(s, ':');
    var j := JoinAll(parts, ':');
    var n: nat := |s| - |j|;
    assert parts == [parts[0], parts[1], parts[2]];
    assert parts[1..][1..] == [parts[2]];
    assert JoinFields(parts[1..], ':') == parts[1] + [':'] + parts[2];
    assert j == parts[0] + [':'] + (parts[1] + [':'] + parts[2]);
    assert s == k.worldName + ":" + parts[1] + ":" + parts[2] + Seps(':', n);
  }

  /** Three colon-free fields followed by a trailing `:` split into exactly those three fields. */
  lemma {:induction false} SplitThreeFieldsTrailing(w: string, xs: string, zs: string)
    requires ':' !in w && ':' !in xs && ':' !in zs && zs != ""
    ensures Split(w + ":" + xs + ":" + zs + ":", ':') == [w, xs, zs]
  {
    var tail := zs + [':'] + "";
    SplitFieldsFirst(zs, ':', "");
    var mid := xs + [':'] + tail;
    SplitFieldsFirst(xs, ':', tail);
    var s := w + [':'] + mid;
    SplitFieldsFirst(w, ':', mid);
    assert s == w + ":" + xs + ":" + zs + ":";
    var fields := SplitFields(s, ':');
    assert fields == [w, xs, zs] + [""];
    DropOneTrailingEmpty([w, xs, zs]);
    assert s[|w|] == ':';
  }

  /**
   * Java's `split` drops trailing empty fields, so a key written with a
   * trailing `:` still reads as that key.
   */
  lemma FromStringTrailingSeparator(k: ChunkKey)
    requires ':' !in k.worldName
    ensures FromString(ToString(k) + ":") == Some(k)
  {
    IntToStringAlphabet(k.x, ':');
    IntToStringAlphabet(k.z, ':');
    SplitThreeFieldsTrailing(k.worldName, IntToString(k.x), IntToString(k.z));
    ParseIntOfIntToString(k.x);
    ParseIntOfIntToString(k.z);
  }

  /** `parseInt` takes a leading `+`, which `toString` never writes. */
  lemma ParseIntPlusSign(n: nat)
    requires n <= MAX_INT
    ensures ParseInt("+" + NatToString(n)) == Some(n)
  {
    var s := "+" + NatToString(n);
    assert s[1..] == NatToString(n);
    DigitsValueOfNatToString(n);
  }
}
