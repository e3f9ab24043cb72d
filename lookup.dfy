/** Catalog lookups of prompting.py: `get_family`, `get_checkpoint` and the control-model
    search inside `build_prompt_text`, all of them "first entry whose id matches, else
    None" (`next(generator, None)`). */
module Lookup {
  import opened Wrappers
  import opened Config

  /** `xs[i]` is the first entry of `xs` whose id is `id`. */
  ghost predicate FirstWithId<T>(xs: seq<T>, id: string, idOf: T -> string, i: int) {
    && 0 <= i < |xs|
    && idOf(xs[i]) == id
    && forall j :: 0 <= j < i ==> idOf(xs[j]) != id
  }

  ghost predicate DistinctIds<T>(xs: seq<T>, idOf: T -> string) {
    forall i, j :: 0 <= i < j < |xs| ==> idOf(xs[i]) != idOf(xs[j])
  }

  /** `next((x for x in xs if x["id"] == id), None)`. */
  function FindById<T>(xs: seq<T>, id: string, idOf: T -> string): (r: Option<T>)
    ensures r.None? <==> forall i :: 0 <= i < |xs| ==> idOf(xs[i]) != id
    ensures r.Some? ==> exists i :: FirstWithId(xs, id, idOf, i) && xs[i] == r.value
  {
    if xs == [] then None
    else if idOf(xs[0]) == id then
      assert FirstWithId(xs, id, idOf, 0);
      Some(xs[0])
    else
      var r := FindById(xs[1..], id, idOf);
      assert r.Some? ==> exists i :: FirstWithId(xs, id, idOf, i) && xs[i] == r.value by {
        if r.Some? {
          var i :| FirstWithId(xs[1..], id, idOf, i) && xs[1..][i] == r.value;
          assert FirstWithId(xs, id, idOf, i + 1);
        }
      }
      r
  }

  /** When ids are a key, the first match is the only match. */
  lemma FindByIdUnique<T>(xs: seq<T>, id: string, idOf: T -> string, k: nat)
    requires DistinctIds(xs, idOf)
    requires k < |xs| && idOf(xs[k]) == id
    ensures FindById(xs, id, idOf) == Some(xs[k])
  {
    var r := FindById(xs, id, idOf);
    var i :| FirstWithId(xs, id, idOf, i) && xs[i] == r.value;
    assert i == k;
  }

  function FamilyId(f: Family): string { f.id }
  function CheckpointId(c: Checkpoint): string { c.id }
  function AuxId(a: AuxModel): string { a.id }

  /** prompting.py `get_family`. */
  function GetFamily(familyId: string): Option<Family> {
    FindById(Families, familyId, FamilyId)
  }

  /** prompting.py `get_checkpoint`. */
  function GetCheckpoint(family: Family, checkpointId: string): Option<Checkpoint> {
    FindById(family.checkpoints, checkpointId, CheckpointId)
  }

  /** The control-model search of `build_prompt_text`. */
  function GetControlModel(controlId: string): Option<AuxModel> {
    FindById(ControlModels, controlId, AuxId)
  }

  /** `get_family` finds exactly the catalog entry with the given id, and what it finds has a
      checkpoint to fall back on. */
  lemma GetFamilyExact(familyId: string)
    ensures GetFamily(familyId).Some? <==> exists i :: 0 <= i < |Families| && Families[i].id == familyId
    ensures forall i :: 0 <= i < |Families| && Families[i].id == familyId ==>
      GetFamily(familyId) == Some(Families[i])
    ensures GetFamily(familyId).Some? ==>
      GetFamily(familyId).value in Families && |GetFamily(familyId).value.checkpoints| > 0
  {
    FamilyIdsDistinct();
    EveryFamilyHasCheckpoints();
    forall i | 0 <= i < |Families| && Families[i].id == familyId
      ensures GetFamily(familyId) == Some(Families[i])
    {
      FindByIdUnique(Families, familyId, FamilyId, i);
    }
  }

  /** What `get_family` finds is a catalog family with that id and at least one checkpoint. */
  lemma FoundFamily(familyId: string)
    ensures GetFamily(familyId).Some? ==>
      GetFamily(familyId).value in Families && GetFamily(familyId).value.id == familyId &&
      |GetFamily(familyId).value.checkpoints| > 0
  {
    EveryFamilyHasCheckpoints();
  }

  /** Within a catalog family, `get_checkpoint` finds exactly the checkpoint with that id. */
  lemma GetCheckpointExact(i: nat, k: nat, checkpointId: string)
    requires i < |Families| && k < |Families[i].checkpoints|
    requires Families[i].checkpoints[k].id == checkpointId
    ensures GetCheckpoint(Families[i], checkpointId) == Some(Families[i].checkpoints[k])
  {
    CheckpointIdsDistinct();
    FindByIdUnique(Families[i].checkpoints, checkpointId, CheckpointId, k);
  }

  /** The first checkpoint of a family is found by its own id; this is what makes the
      fallback to `checkpoints[0]` indistinguishable from selecting it. */
  lemma FirstCheckpointFound(family: Family)
    requires |family.checkpoints| > 0
    ensures GetCheckpoint(family, family.checkpoints[0].id) == Some(family.checkpoints[0])
  {
  }

  /** The control label of `build_prompt_text` comes from the one control model with that id. */
  lemma GetControlModelExact(k: nat, controlId: string)
    requires k < |ControlModels| && ControlModels[k].id == controlId
    ensures GetControlModel(controlId) == Some(ControlModels[k])
  {
    ControlIdsDistinct();
    FindByIdUnique(ControlModels, controlId, AuxId, k);
  }
}
