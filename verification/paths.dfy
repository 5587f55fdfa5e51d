/** The asset paths the viewer switches between, and the character families
    they belong to.

    The viewer keeps the current model and image as plain strings, but every
    assignment to them is one of a handful of literals, so they are modelled
    here as enumerations together with the literal each value stands for. */
module Paths {
  import opened Wrappers

  /** The three characters the viewer can show. */
  datatype Family = Gengar | Meloetta | Lucario

  /** Every value the current model path can hold: a base model and a
      "party" variant (the `2` file) per family. */
  datatype ModelPath =
    | GengarGlb | Gengar2Glb
    | MeloettaGlb | Meloetta2Glb
    | LucarioGlb | Lucario2Glb

  /** Every image path the handlers pass to `changeImageAndModel`. */
  datatype ImagePath = GengarPng | MeloettaPng | Meloetta2Png | LucarioPng

  /** The file name a model path stands for. */
  function ModelFile(m: ModelPath): string {
    match m
    case GengarGlb => "gengar.glb"
    case Gengar2Glb => "gengar2.glb"
    case MeloettaGlb => "meloetta.glb"
    case Meloetta2Glb => "meloetta2.glb"
    case LucarioGlb => "lucario.glb"
    case Lucario2Glb => "lucario2.glb"
  }

  /** The file name an image path stands for. */
  function ImageFile(i: ImagePath): string {
    match i
    case GengarPng => "gengar.png"
    case MeloettaPng => "meloetta.png"
    case Meloetta2Png => "meloetta2.png"
    case LucarioPng => "lucario.png"
  }

  /** Distinct image paths are distinct strings, so the stored image
      enumeration determines the `src` written to the image element. */
  lemma ImageFileInjective(i: ImagePath, j: ImagePath)
    ensures ImageFile(i) == ImageFile(j) ==> i == j
  {
  }

  /** Recognises one of the six model file names, the way the handlers'
      chains of `===` comparisons do. */
  function ParseModelFile(s: string): (r: Option<ModelPath>)
    ensures r.Some? ==> ModelFile(r.value) == s
    ensures r.None? <==> forall m: ModelPath :: ModelFile(m) != s
  {
    if s == "gengar.glb" then Some(GengarGlb)
    else if s == "gengar2.glb" then Some(Gengar2Glb)
    else if s == "meloetta.glb" then Some(MeloettaGlb)
    else if s == "meloetta2.glb" then Some(Meloetta2Glb)
    else if s == "lucario.glb" then Some(LucarioGlb)
    else if s == "lucario2.glb" then Some(Lucario2Glb)
    else None
  }

  /** Distinct model paths are distinct strings, so comparing the enumeration
      is the same as comparing the file names with `===`. */
  lemma ParseModelFileRoundTrip(m: ModelPath)
    ensures ParseModelFile(ModelFile(m)) == Some(m)
    ensures forall m': ModelPath :: ModelFile(m') == ModelFile(m) ==> m' == m
  {
    match m
    case GengarGlb =>
    case Gengar2Glb =>
    case MeloettaGlb =>
    case Meloetta2Glb =>
    case LucarioGlb =>
    case Lucario2Glb =>
  }

  /** The character a model path shows, whether base or party variant. */
  function FamilyOf(m: ModelPath): Family {
    match m
    case GengarGlb | Gengar2Glb => Gengar
    case MeloettaGlb | Meloetta2Glb => Meloetta
    case LucarioGlb | Lucario2Glb => Lucario
  }

  /** True of the three `X2.glb` party variants. */
  predicate IsPartyVariant(m: ModelPath) {
    m == Gengar2Glb || m == Meloetta2Glb || m == Lucario2Glb
  }

  /** The base (`X.glb`) model of a family. */
  function BaseModel(f: Family): (r: ModelPath)
    ensures FamilyOf(r) == f && !IsPartyVariant(r)
  {
    match f
    case Gengar => GengarGlb
    case Meloetta => MeloettaGlb
    case Lucario => LucarioGlb
  }

  /** The party (`X2.glb`) model of a family. */
  function PartyModel(f: Family): (r: ModelPath)
    ensures FamilyOf(r) == f && IsPartyVariant(r)
  {
    match f
    case Gengar => Gengar2Glb
    case Meloetta => Meloetta2Glb
    case Lucario => Lucario2Glb
  }

  /** A model path is determined by its family and whether it is the party
      variant. */
  lemma ModelPathDecomposition(m: ModelPath)
    ensures m == if IsPartyVariant(m) then PartyModel(FamilyOf(m)) else BaseModel(FamilyOf(m))
  {
  }

  /** The base `.png` thumbnail of a family. */
  function BaseImage(f: Family): ImagePath {
    match f
    case Gengar => GengarPng
    case Meloetta => MeloettaPng
    case Lucario => LucarioPng
  }

  /** The order the right button walks through; the left button walks it
      backwards. */
  const Cycle: seq<Family> := [Gengar, Meloetta, Lucario]

  /** Where a family sits in `Cycle`. */
  function CyclePosition(f: Family): (k: nat)
    ensures k < |Cycle| && Cycle[k] == f
  {
    match f
    case Gengar => 0
    case Meloetta => 1
    case Lucario => 2
  }

  /** One step forward in the cycle, wrapping around. */
  function NextFamily(f: Family): Family {
    Cycle[(CyclePosition(f) + 1) % |Cycle|]
  }

  /** One step backward in the cycle, wrapping around. */
  function PrevFamily(f: Family): Family {
    Cycle[(CyclePosition(f) + |Cycle| - 1) % |Cycle|]
  }

  /** Forward and backward steps undo each other, and three forward steps
      are the identity. */
  lemma CycleLaws(f: Family)
    ensures PrevFamily(NextFamily(f)) == f
    ensures NextFamily(PrevFamily(f)) == f
    ensures NextFamily(NextFamily(NextFamily(f))) == f
    ensures NextFamily(f) != f && PrevFamily(f) != f
  {
  }
}
