/** The depth-stencil attachment of a render pass
    (`RenderPassDepthStencilAttachmentDescriptor`): an immutable value with
    defaulted constructor arguments, fieldwise equality and a `* 397 ^` hash.

    The clear depth is a 32-bit float. Its IEEE-754 equality (NaN unequal to
    itself, +0 equal to -0) and its `GetHashCode` are not modelled: the value
    is kept as its bit pattern, and the equality and hash the runtime gives
    it are parameters of `Equals` and `GetHashCode`. */
module DepthStencilAttachment {
  import opened Graphics

  /** A `Texture` object, identified by its reference. */
  datatype TextureRef = TextureRef(id: nat)

  /** A `float`, as its IEEE-754 bit pattern. */
  datatype Single = Single(bits: bv32)

  /** `1.0f`. */
  const OnePointZero: Single := Single(0x3F80_0000)

  /** What a render pass does with the attachment when it begins. The enum
      declaration is not part of this model; the members and their ordinals
      (the values `GetHashCode` returns) are assumed. */
  datatype LoadAction = Discard | Load | Clear

  /** What a render pass does with the attachment when it ends; as for
      `LoadAction`, members and ordinals are assumed. */
  datatype StoreAction = Store | DontCare

  /** The seven properties, in declaration order. A null texture is `None`. */
  datatype Descriptor = Descriptor(
    texture: Option<TextureRef>,
    clearDepth: Single,
    clearStencil: bv8,
    loadAction: LoadAction,
    storeAction: StoreAction,
    mipLevel: Int32,
    slice: Int32)

  /** The constructor: each argument is stored unchanged in the property of
      the same name; omitted arguments take the C# defaults. */
  function New(
    texture: Option<TextureRef>,
    clearDepth: Single := OnePointZero,
    clearStencil: bv8 := 0,
    loadAction: LoadAction := Clear,
    storeAction: StoreAction := DontCare,
    mipLevel: Int32 := 0,
    slice: Int32 := 0): (d: Descriptor)
    ensures d.texture == texture && d.clearDepth == clearDepth && d.clearStencil == clearStencil
    ensures d.loadAction == loadAction && d.storeAction == storeAction
    ensures d.mipLevel == mipLevel && d.slice == slice
  {
    Descriptor(texture, clearDepth, clearStencil, loadAction, storeAction, mipLevel, slice)
  }

  /** Constructing with only a texture gives clear depth 1.0, clear stencil
      0, load action Clear, store action DontCare, mip level 0 and slice 0. */
  lemma NewDefaults(texture: Option<TextureRef>)
    ensures New(texture) == Descriptor(texture, OnePointZero, 0, Clear, DontCare, 0, 0)
  {
  }

  /** `Equals(other)`: the textures are the same reference (or both null)
      and the other six properties are equal, the clear depths under the
      float equality `depthEq`. */
  predicate Equals(d: Descriptor, other: Descriptor, depthEq: (Single, Single) -> bool)
  {
    && d.texture == other.texture
    && depthEq(d.clearDepth, other.clearDepth)
    && d.clearStencil == other.clearStencil
    && d.loadAction == other.loadAction
    && d.storeAction == other.storeAction
    && d.mipLevel == other.mipLevel
    && d.slice == other.slice
  }

  /** `operator ==`. */
  predicate OpEquality(left: Descriptor, right: Descriptor, depthEq: (Single, Single) -> bool)
  {
    Equals(left, right, depthEq)
  }

  /** `operator !=`. */
  predicate OpInequality(left: Descriptor, right: Descriptor, depthEq: (Single, Single) -> bool)
  {
    !Equals(left, right, depthEq)
  }

  /** What `Equals(object)` may be handed. */
  datatype Object = Null | Boxed(descriptor: Descriptor) | OtherObject(typeName: string)

  /** `Equals(object)`: a boxed descriptor equal to this one. */
  predicate EqualsObject(d: Descriptor, obj: Object, depthEq: (Single, Single) -> bool)
  {
    obj.Boxed? && Equals(d, obj.descriptor, depthEq)
  }

  /** The two operators agree with `Equals` and with each other. */
  lemma OperatorsAgree(left: Descriptor, right: Descriptor, depthEq: (Single, Single) -> bool)
    ensures OpEquality(left, right, depthEq) <==> Equals(left, right, depthEq)
    ensures OpInequality(left, right, depthEq) <==> !OpEquality(left, right, depthEq)
  {
  }

  /** `Equals(object)` is false for null and for any other type, and agrees
      with the typed `Equals` on a boxed descriptor. */
  lemma EqualsObjectCases(d: Descriptor, obj: Object, depthEq: (Single, Single) -> bool)
    ensures obj.Null? || obj.OtherObject? ==> !EqualsObject(d, obj, depthEq)
    ensures obj.Boxed? ==> (EqualsObject(d, obj, depthEq) <==> Equals(d, obj.descriptor, depthEq))
  {
  }

  /** When floats are compared by bit pattern, `Equals` is exactly equality
      of the descriptor values. */
  lemma EqualsIsValueEquality(d: Descriptor, other: Descriptor, depthEq: (Single, Single) -> bool)
    requires forall x, y :: depthEq(x, y) <==> x == y
    ensures Equals(d, other, depthEq) <==> d == other
  {
  }

  /** A descriptor equals itself exactly when its clear depth equals itself
      (a NaN clear depth makes it unequal to itself). */
  lemma EqualsReflexiveIff(d: Descriptor, depthEq: (Single, Single) -> bool)
    ensures Equals(d, d, depthEq) <==> depthEq(d.clearDepth, d.clearDepth)
  {
  }

  /** `Equals` is symmetric and transitive whenever the float equality is. */
  lemma EqualsSymmetricTransitive(a: Descriptor, b: Descriptor, c: Descriptor, depthEq: (Single, Single) -> bool)
    requires forall x, y :: depthEq(x, y) ==> depthEq(y, x)
    requires forall x, y, z :: depthEq(x, y) && depthEq(y, z) ==> depthEq(x, z)
    ensures Equals(a, b, depthEq) ==> Equals(b, a, depthEq)
    ensures Equals(a, b, depthEq) && Equals(b, c, depthEq) ==> Equals(a, c, depthEq)
  {
  }

  /** `int.GetHashCode()`: the value itself, as its two's complement pattern. */
  function Int32Hash(x: Int32): bv32
  {
    if x >= 0 then (x as int) as bv32 else (x as int + 0x1_0000_0000) as bv32
  }

  /** `GetHashCode()` of the two enums: the ordinal. */
  function LoadActionHash(a: LoadAction): bv32
  {
    match a
    case Discard => 0
    case Load => 1
    case Clear => 2
  }

  function StoreActionHash(a: StoreAction): bv32
  {
    match a
    case Store => 0
    case DontCare => 1
  }

  /** One step of the fold: `(hashCode * 397) ^ fieldHash`, wrapping. */
  function HashStep(hashCode: bv32, fieldHash: bv32): bv32
  {
    (hashCode * 397) ^ fieldHash
  }

  /** `GetHashCode()`: start from the texture's hash (0 when null), then fold
      the six other properties in declaration order. */
  function GetHashCode(d: Descriptor, textureHash: TextureRef -> bv32, depthHash: Single -> bv32): bv32
  {
    var hashCode := if d.texture.Some? then textureHash(d.texture.value) else 0;
    var hashCode := HashStep(hashCode, depthHash(d.clearDepth));
    var hashCode := HashStep(hashCode, d.clearStencil as bv32);
    var hashCode := HashStep(hashCode, LoadActionHash(d.loadAction));
    var hashCode := HashStep(hashCode, StoreActionHash(d.storeAction));
    var hashCode := HashStep(hashCode, Int32Hash(d.mipLevel));
    HashStep(hashCode, Int32Hash(d.slice))
  }

  /** The reference fold: `HashStep` applied left to right over a list. */
  function FoldHash(seed: bv32, fieldHashes: seq<bv32>): bv32
    decreases |fieldHashes|
  {
    if fieldHashes == [] then seed
    else FoldHash(HashStep(seed, fieldHashes[0]), fieldHashes[1..])
  }

  /** The hashes of the six properties after the texture, in declaration order. */
  function FieldHashes(d: Descriptor, depthHash: Single -> bv32): (hs: seq<bv32>)
    ensures |hs| == 6
  {
    [depthHash(d.clearDepth), d.clearStencil as bv32, LoadActionHash(d.loadAction),
     StoreActionHash(d.storeAction), Int32Hash(d.mipLevel), Int32Hash(d.slice)]
  }

  /** One step of the reference fold over a non-empty list. */
  lemma FoldHashUnfold(seed: bv32, hs: seq<bv32>)
    requires hs != []
    ensures FoldHash(seed, hs) == FoldHash(HashStep(seed, hs[0]), hs[1..])
  {
  }

  /** `GetHashCode` is the fold of the six property hashes over the
      texture's hash. */
  lemma GetHashCodeIsFold(d: Descriptor, textureHash: TextureRef -> bv32, depthHash: Single -> bv32)
    ensures GetHashCode(d, textureHash, depthHash)
         == FoldHash(if d.texture.Some? then textureHash(d.texture.value) else 0, FieldHashes(d, depthHash))
  {
    var hs := FieldHashes(d, depthHash);
    var h0 := if d.texture.Some? then textureHash(d.texture.value) else 0;
    var h1 := HashStep(h0, hs[0]);
    var h2 := HashStep(h1, hs[1]);
    var h3 := HashStep(h2, hs[2]);
    var h4 := HashStep(h3, hs[3]);
    var h5 := HashStep(h4, hs[4]);
    var h6 := HashStep(h5, hs[5]);
    FoldHashUnfold(h0, hs);
    FoldHashUnfold(h1, hs[1..]);
    FoldHashUnfold(h2, hs[2..]);
    FoldHashUnfold(h3, hs[3..]);
    FoldHashUnfold(h4, hs[4..]);
    FoldHashUnfold(h5, hs[5..]);
    assert hs[1..][1..] == hs[2..] && hs[2..][1..] == hs[3..] && hs[3..][1..] == hs[4..];
    assert hs[4..][1..] == hs[5..] && hs[5..][1..] == [];
  }

  /** Descriptors that are `Equals` have the same hash, provided the float
      hash agrees with the float equality. */
  lemma EqualsImpliesSameHash(a: Descriptor, b: Descriptor, depthEq: (Single, Single) -> bool,
                              textureHash: TextureRef -> bv32, depthHash: Single -> bv32)
    requires forall x, y :: depthEq(x, y) ==> depthHash(x) == depthHash(y)
    ensures Equals(a, b, depthEq) ==> GetHashCode(a, textureHash, depthHash) == GetHashCode(b, textureHash, depthHash)
  {
    if Equals(a, b, depthEq) {
      assert FieldHashes(a, depthHash) == FieldHashes(b, depthHash);
      GetHashCodeIsFold(a, textureHash, depthHash);
      GetHashCodeIsFold(b, textureHash, depthHash);
    }
  }
}
