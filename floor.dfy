/** The floor test the VR helper hands to the engine's ray picking: a mesh is
    a valid teleportation area when its name contains "My Floor". The test is
    written with JavaScript's String.prototype.indexOf, modelled here. */
module Floor {

  /** The substring the floor test looks for. */
  const FloorMarker: string := "My Floor"

  /** `pat` occurs in `s` starting at index `i`. */
  predicate OccursAt(s: string, pat: string, i: int) {
    0 <= i && i + |pat| <= |s| && s[i..i + |pat|] == pat
  }

  /** String.prototype.indexOf(pat, from): the first index at or after
      `from` where `pat` occurs, or -1 when there is none. */
  function IndexOfFrom(s: string, pat: string, from: nat): (r: int)
    requires from <= |s|
    decreases |s| - from
    ensures r == -1 || (from <= r && OccursAt(s, pat, r))
    ensures r == -1 <==> forall i :: from <= i && OccursAt(s, pat, i) ==> false
    ensures r != -1 ==> forall i :: from <= i < r ==> !OccursAt(s, pat, i)
  {
    if from + |pat| > |s| then -1
    else if s[from..from + |pat|] == pat then from
    else IndexOfFrom(s, pat, from + 1)
  }

  /** String.prototype.indexOf(pat). */
  function IndexOf(s: string, pat: string): int {
    IndexOfFrom(s, pat, 0)
  }

  /** VRHelper.predicate: a picked mesh named `name` is a floor the user may
      teleport onto. The helper's stored floor name plays no part. */
  predicate Predicate(name: string) {
    IndexOf(name, FloorMarker) != -1
  }

  /** The predicate holds exactly when "My Floor" is a substring of the name. */
  lemma PredicateIffContains(name: string)
    ensures Predicate(name) <==> exists i :: OccursAt(name, FloorMarker, i)
  {
    if exists i :: OccursAt(name, FloorMarker, i) {
      var i :| OccursAt(name, FloorMarker, i);
      assert 0 <= i;
    }
  }

  /** The floor name given to the constructor is not what is tested: the
      demos name their floor "My Floor" and it is accepted, but a helper built
      for the floor "Sponza Floor" (the name the source's comment mentions)
      rejects that very mesh. */
  lemma FloorNameNotConsulted()
    ensures Predicate("My Floor")
    ensures !Predicate("Sponza Floor")
  {
    assert OccursAt("My Floor", FloorMarker, 0);
    var sponza := "Sponza Floor";
    // "My Floor" fits only at the first five positions, none of which holds an 'M'
    forall i | 0 <= i <= |sponza| - |FloorMarker|
      ensures !OccursAt(sponza, FloorMarker, i)
    {
      assert sponza[i] != FloorMarker[0];
    }
  }
}
