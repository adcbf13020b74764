/** The study-material store of `eduragpt/lib/store.ts`: one list of uploaded
    materials that four actions replace with a new list. The persistence of
    the list in the browser's local storage is not modelled. */
module StudyMaterials {
  import opened Seqs

  /** One uploaded file as the store keeps it (`type` is a keyword here, so
      the field is called `fileType`). */
  datatype StudyMaterial = StudyMaterial(
    id: string, name: string, fileType: string, size: nat, pages: nat,
    uploadDate: string, content: string)

  /** `materials.filter(material => material.id !== id)` */
  function WithoutId(materials: seq<StudyMaterial>, id: string): (r: seq<StudyMaterial>)
    ensures forall m :: m in r <==> m in materials && m.id != id
    ensures |r| <= |materials|
  {
    Filter(materials, (m: StudyMaterial) => m.id != id)
  }

  /** True when no material in the list has this id. */
  predicate IdAbsent(materials: seq<StudyMaterial>, id: string)
  {
    forall i :: 0 <= i < |materials| ==> materials[i].id != id
  }

  /** Removal deletes every material with the id, and only those, keeping the
      rest in their original relative order. */
  lemma RemoveKeepsOthersInOrder(materials: seq<StudyMaterial>, id: string)
    ensures IdAbsent(WithoutId(materials, id), id)
    ensures IsSubsequence(WithoutId(materials, id), materials)
    ensures forall m :: m in materials && m.id != id ==> m in WithoutId(materials, id)
  {
    FilterIsSubsequence(materials, (m: StudyMaterial) => m.id != id);
    var r := WithoutId(materials, id);
    forall i | 0 <= i < |r| ensures r[i].id != id {
      assert r[i] in r;
    }
  }

  /** Removing an id nobody has changes nothing. */
  lemma RemoveAbsentIsIdentity(materials: seq<StudyMaterial>, id: string)
    requires IdAbsent(materials, id)
    ensures WithoutId(materials, id) == materials
  {
    forall m | m in materials ensures m.id != id {
      var i :| 0 <= i < |materials| && materials[i] == m;
    }
    FilterKeepsAll(materials, (m: StudyMaterial) => m.id != id);
  }

  /** Removing the same id twice is the same as removing it once. */
  lemma RemoveIdempotent(materials: seq<StudyMaterial>, id: string)
    ensures WithoutId(WithoutId(materials, id), id) == WithoutId(materials, id)
  {
    RemoveKeepsOthersInOrder(materials, id);
    RemoveAbsentIsIdentity(WithoutId(materials, id), id);
  }

  /** Adding a material whose id is new and then removing that id restores the list. */
  lemma AddThenRemoveRestores(materials: seq<StudyMaterial>, m: StudyMaterial)
    requires IdAbsent(materials, m.id)
    ensures WithoutId(materials + [m], m.id) == materials
  {
    FilterAppend(materials, [m], (x: StudyMaterial) => x.id != m.id);
    RemoveAbsentIsIdentity(materials, m.id);
  }

  /** Removal distributes over the lists a store was built from. */
  lemma RemoveAfterAppend(materials: seq<StudyMaterial>, added: seq<StudyMaterial>, id: string)
    ensures WithoutId(materials + added, id) == WithoutId(materials, id) + WithoutId(added, id)
  {
    FilterAppend(materials, added, (x: StudyMaterial) => x.id != id);
  }

  /** `useStudyMaterialsStore`: the `materials` state and its actions. */
  class StudyMaterialsStore {
    var materials: seq<StudyMaterial>

    /** The list starts empty. */
    constructor ()
      ensures materials == []
    {
      materials := [];
    }

    /** `addMaterial(material)`: appends one material. */
    method AddMaterial(material: StudyMaterial)
      modifies this
      ensures materials == old(materials) + [material]
      ensures |materials| == |old(materials)| + 1 && materials[..|old(materials)|] == old(materials)
    {
      materials := materials + [material];
    }

    /** `addMaterials(materials)`: appends several, in order. */
    method AddMaterials(added: seq<StudyMaterial>)
      modifies this
      ensures materials == old(materials) + added
      ensures added == [] ==> materials == old(materials)
    {
      materials := materials + added;
    }

    /** `removeMaterial(id)`: keeps the materials with a different id. */
    method RemoveMaterial(id: string)
      modifies this
      ensures materials == WithoutId(old(materials), id)
      ensures IdAbsent(materials, id)
      ensures IsSubsequence(materials, old(materials))
    {
      RemoveKeepsOthersInOrder(materials, id);
      materials := WithoutId(materials, id);
    }

    /** `clearMaterials()` */
    method ClearMaterials()
      modifies this
      ensures materials == []
    {
      materials := [];
    }
  }
}
