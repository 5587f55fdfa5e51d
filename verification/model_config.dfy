/** The per-model placement and animation speed that `loadModel` picks by
    looking for a character name inside the requested path.

    Lengths are in tenths of a scene unit and speeds in tenths of normal
    speed, so that 0.7, 1.3, -0.5, 1 and 0.3 are the integers 7, 13, -5,
    10 and 3. */
module ModelConfig {
  import opened Wrappers
  import opened Paths

  /** Position and uniform scale applied to a loaded model. The x and z
      coordinates are always 0 and are not kept. */
  datatype Placement = Placement(positionY: int, scale: int)

  /** `w` occurs in `s` starting at index `i`. */
  predicate OccursAt(s: string, w: string, i: int) {
    0 <= i && i + |w| <= |s| && s[i..i + |w|] == w
  }

  /** `w` occurs somewhere in `s`: the meaning of JavaScript's `s.includes(w)`. */
  ghost predicate Occurs(s: string, w: string) {
    exists i :: OccursAt(s, w, i)
  }

  /** A left-to-right substring search. */
  function Includes(s: string, w: string): bool
    decreases |s|
  {
    if |w| > |s| then false
    else if w == s[..|w|] then true
    else Includes(s[1..], w)
  }

  /** The search finds `w` exactly when it occurs in `s`. */
  lemma {:induction false} IncludesIff(s: string, w: string)
    ensures Includes(s, w) <==> Occurs(s, w)
    decreases |s|
  {
    if |w| > |s| {
      assert forall i :: !OccursAt(s, w, i);
    } else if w == s[..|w|] {
      assert OccursAt(s, w, 0);
    } else {
      IncludesIff(s[1..], w);
      if Occurs(s[1..], w) {
        var i :| OccursAt(s[1..], w, i);
        assert s[1..][i..i + |w|] == s[i + 1..i + 1 + |w|];
        assert OccursAt(s, w, i + 1);
      }
      if Occurs(s, w) {
        var i :| OccursAt(s, w, i);
        assert i != 0;
        assert s[1..][i - 1..i - 1 + |w|] == s[i..i + |w|];
        assert OccursAt(s[1..], w, i - 1);
      }
    }
  }

  /** A word with a character that `s` lacks does not occur in `s`. */
  lemma MissingCharacter(s: string, w: string, c: char)
    requires c in w && c !in s
    ensures !Occurs(s, w)
  {
  }

  /** The placement `loadModel` applies: the first of "gengar", "meloetta",
      "lucario" found in the path decides; a path with none of them keeps
      the loaded scene's own placement (`None`). */
  function PlacementFor(path: string): (r: Option<Placement>)
    ensures Occurs(path, "gengar") ==> r == Some(Placement(0, 7))
    ensures !Occurs(path, "gengar") && Occurs(path, "meloetta") ==> r == Some(Placement(0, 13))
    ensures !Occurs(path, "gengar") && !Occurs(path, "meloetta") && Occurs(path, "lucario")
            ==> r == Some(Placement(-5, 10))
    ensures r.None? <==> !Occurs(path, "gengar") && !Occurs(path, "meloetta") && !Occurs(path, "lucario")
  {
    IncludesIff(path, "gengar");
    IncludesIff(path, "meloetta");
    IncludesIff(path, "lucario");
    if Includes(path, "gengar") then Some(Placement(0, 7))
    else if Includes(path, "meloetta") then Some(Placement(0, 13))
    else if Includes(path, "lucario") then Some(Placement(-5, 10))
    else None
  }

  /** The `timeScale` given to every animation clip of the loaded model, in
      tenths, chosen by the same chain of tests as the placement. */
  function TimeScaleFor(path: string): (r: Option<int>)
    ensures Occurs(path, "gengar") ==> r == Some(7)
    ensures !Occurs(path, "gengar") && Occurs(path, "meloetta") ==> r == Some(3)
    ensures !Occurs(path, "gengar") && !Occurs(path, "meloetta") && Occurs(path, "lucario")
            ==> r == Some(7)
    ensures r.None? <==> !Occurs(path, "gengar") && !Occurs(path, "meloetta") && !Occurs(path, "lucario")
  {
    IncludesIff(path, "gengar");
    IncludesIff(path, "meloetta");
    IncludesIff(path, "lucario");
    if Includes(path, "gengar") then Some(7)
    else if Includes(path, "meloetta") then Some(3)
    else if Includes(path, "lucario") then Some(7)
    else None
  }

  /** The per-family table the substring tests amount to. */
  function FamilyPlacement(f: Family): Placement {
    match f
    case Gengar => Placement(0, 7)
    case Meloetta => Placement(0, 13)
    case Lucario => Placement(-5, 10)
  }

  /** The per-family animation speed, in tenths. */
  function FamilyTimeScale(f: Family): int {
    match f
    case Gengar => 7
    case Meloetta => 3
    case Lucario => 7
  }

  /** The literal facts behind the configuration of one model file: which
      of the three character names its file name contains. */
  lemma ModelFileNames(m: ModelPath)
    ensures FamilyOf(m) == Gengar ==> Occurs(ModelFile(m), "gengar")
    ensures FamilyOf(m) == Meloetta ==> !Occurs(ModelFile(m), "gengar") && Occurs(ModelFile(m), "meloetta")
    ensures FamilyOf(m) == Lucario ==>
      !Occurs(ModelFile(m), "gengar") && !Occurs(ModelFile(m), "meloetta") && Occurs(ModelFile(m), "lucario")
  {
    var s := ModelFile(m);
    match FamilyOf(m)
    case Gengar =>
      assert OccursAt(s, "gengar", 0);
    case Meloetta =>
      MissingCharacter(s, "gengar", 'n');
      assert OccursAt(s, "meloetta", 0);
    case Lucario =>
      MissingCharacter(s, "gengar", 'n');
      MissingCharacter(s, "meloetta", 'm');
      assert OccursAt(s, "lucario", 0);
  }

  /** Each of the six model files is placed as its family's table entry says. */
  lemma ModelFilePlacement(m: ModelPath)
    ensures PlacementFor(ModelFile(m)) == Some(FamilyPlacement(FamilyOf(m)))
  {
    ModelFileNames(m);
  }

  /** Each of the six model files is animated at its family's speed. */
  lemma ModelFileTimeScale(m: ModelPath)
    ensures TimeScaleFor(ModelFile(m)) == Some(FamilyTimeScale(FamilyOf(m)))
  {
    ModelFileNames(m);
  }

  /** A party variant is placed and animated exactly like its base model. */
  lemma PartyVariantSameConfig(f: Family)
    ensures PlacementFor(ModelFile(PartyModel(f))) == PlacementFor(ModelFile(BaseModel(f)))
    ensures TimeScaleFor(ModelFile(PartyModel(f))) == TimeScaleFor(ModelFile(BaseModel(f)))
  {
    ModelFilePlacement(PartyModel(f));
    ModelFilePlacement(BaseModel(f));
    ModelFileTimeScale(PartyModel(f));
    ModelFileTimeScale(BaseModel(f));
  }
}
