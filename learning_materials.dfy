/**
 * A teacher's learning materials: `GET`, `POST`, `PUT` and `DELETE` on
 * `/api/teacher/learning-materials`
 * (app/api/teacher/learning-materials/route.ts) over the `Material`
 * document (models/Material.ts).
 *
 * Every method is for teachers only; a material can be changed or removed
 * only by the teacher who uploaded it.
 */
module LearningMaterials {
  import opened Common
  import Collections

  /** A stored material; `materialType` is its `type`, `createdAt` the store's timestamp. */
  datatype Material = Material(
    id: Id,
    title: string,
    description: Option<string>,
    fileUrl: string,
    materialType: string,
    uploadedBy: Id,
    classId: Id,
    subjectId: Option<Id>,
    createdAt: nat)

  /** The `type` enum. */
  predicate IsMaterialType(t: string)
  {
    t == "PDF" || t == "DOC" || t == "VIDEO" || t == "IMAGE"
  }

  function CreatedAt(m: Material): nat
  {
    m.createdAt
  }

  function InClass(classId: Id): Material -> bool
  {
    (m: Material) => m.classId == classId
  }

  datatype Listing = Refused | Listed(materials: seq<Material>)

  /** GET: every material, or those of the class given as `classId`, newest first. */
  function List(caller: Option<Token>, classId: Option<string>, materials: seq<Material>): (r: Listing)
    ensures r.Refused? <==> !HasRole(caller, TEACHER)
    ensures r.Listed? && !Present(classId) ==> multiset(r.materials) == multiset(materials)
    ensures r.Listed? && Present(classId) ==>
      forall m :: multiset(r.materials)[m] == if m.classId == classId.value then multiset(materials)[m] else 0
    ensures r.Listed? ==> forall i, j :: 0 <= i < j < |r.materials| ==> r.materials[i].createdAt >= r.materials[j].createdAt
  {
    if !HasRole(caller, TEACHER) then Refused
    else if Present(classId) then Listed(Collections.NewestFirst(Collections.Filter(materials, InClass(classId.value)), CreatedAt))
    else Listed(Collections.NewestFirst(materials, CreatedAt))
  }

  /** Every listed material of a class filter belongs to that class. */
  lemma ListedBelongToClass(caller: Option<Token>, classId: string, materials: seq<Material>, m: Material)
    requires classId != ""
    requires List(caller, Some(classId), materials).Listed?
    requires m in List(caller, Some(classId), materials).materials
    ensures m.classId == classId && m in materials
  {
    assert m in multiset(List(caller, Some(classId), materials).materials);
  }

  /** The fields a PUT may send. */
  datatype MaterialEdit = MaterialEdit(
    title: Option<string>,
    description: Option<string>,
    fileUrl: Option<string>,
    materialType: Option<string>)

  /** `x || current`: the new value when it is truthy, the current one otherwise. */
  function TruthyOr(x: Option<string>, current: string): (r: string)
    ensures Present(x) ==> r == x.value
    ensures !Present(x) ==> r == current
  {
    if Present(x) then x.value else current
  }

  /** The PUT's four assignments. */
  function Merged(m: Material, e: MaterialEdit): (n: Material)
    ensures n.title == TruthyOr(e.title, m.title)
    ensures n.description == if Present(e.description) then e.description else m.description
    ensures n.fileUrl == TruthyOr(e.fileUrl, m.fileUrl)
    ensures n.materialType == TruthyOr(e.materialType, m.materialType)
    ensures n.(title := m.title, description := m.description, fileUrl := m.fileUrl, materialType := m.materialType) == m
  {
    m.(title := TruthyOr(e.title, m.title),
       description := if Present(e.description) then e.description else m.description,
       fileUrl := TruthyOr(e.fileUrl, m.fileUrl),
       materialType := TruthyOr(e.materialType, m.materialType))
  }

  /** An empty edit changes nothing, and applying an edit twice is applying it once. */
  lemma MergedLaws(m: Material, e: MaterialEdit)
    ensures Merged(m, MaterialEdit(None, None, None, None)) == m
    ensures Merged(Merged(m, e), e) == Merged(m, e)
  {
  }

  /** The position of the material with `_id` `id`, if there is one. */
  function IndexOf(materials: seq<Material>, id: Id): (r: Option<nat>)
    ensures r.Some? ==> r.value < |materials| && materials[r.value].id == id
    ensures r.None? ==> forall i :: 0 <= i < |materials| ==> materials[i].id != id
  {
    if materials == [] then None
    else if materials[0].id == id then Some(0)
    else
      match IndexOf(materials[1..], id)
      case None => None
      case Some(k) => Some(k + 1)
  }

  ghost predicate UniqueIds(materials: seq<Material>)
  {
    forall i, j :: 0 <= i < j < |materials| ==> materials[i].id != materials[j].id
  }

  datatype Outcome =
    | Rejected        // 403 from the teacher check
    | BadRequest      // 400
    | NotFound        // 404 "Material not found"
    | NotUploader     // 401
    | ServerError     // 500: a `type` outside the enum, or a taken `_id`
    | Done(material: Material)  // 201 for POST, 200 otherwise
  {
    function Status(isCreate: bool): int
    {
      match this
      case Rejected => 403
      case BadRequest => 400
      case NotFound => 404
      case NotUploader => 401
      case ServerError => 500
      case Done(_) => if isCreate then 201 else 200
    }
  }

  /** The materials collection. */
  class MaterialLibrary {
    var materials: seq<Material>

    ghost predicate Valid()
      reads this
    {
      UniqueIds(materials)
    }

    constructor ()
      ensures Valid() && materials == []
    {
      materials := [];
    }

    /** POST: a new material owned by the caller, of the default type. */
    method Upload(caller: Option<Token>, title: Option<string>, fileUrl: Option<string>, classId: Option<string>,
                  newId: Id, now: nat) returns (r: Outcome)
      requires Valid()
      modifies this
      ensures Valid()
      ensures !HasRole(caller, TEACHER) ==> r == Rejected
      ensures HasRole(caller, TEACHER) && (!Present(title) || !Present(fileUrl) || !Present(classId)) ==> r == BadRequest
      ensures HasRole(caller, TEACHER) && Present(title) && Present(fileUrl) && Present(classId) ==>
        if IndexOf(old(materials), newId).Some? then r == ServerError
        else r == Done(Material(newId, title.value, None, fileUrl.value, "PDF", caller.value.sub, classId.value, None, now))
      ensures r.Done? ==> materials == old(materials) + [r.material]
      ensures !r.Done? ==> materials == old(materials)
    {
      if !HasRole(caller, TEACHER) {
        return Rejected;
      }
      if !Present(title) || !Present(fileUrl) || !Present(classId) {
        return BadRequest;
      }
      if IndexOf(materials, newId).Some? {
        return ServerError;
      }
      var m := Material(newId, title.value, None, fileUrl.value, "PDF", caller.value.sub, classId.value, None, now);
      materials := materials + [m];
      r := Done(m);
    }

    /** PUT: the uploader's edit, merged field by field into the loaded material, then saved. */
    method Update(caller: Option<Token>, id: Option<string>, edit: MaterialEdit) returns (r: Outcome)
      requires Valid()
      modifies this
      ensures Valid()
      ensures !HasRole(caller, TEACHER) ==> r == Rejected
      ensures HasRole(caller, TEACHER) && !Present(id) ==> r == BadRequest
      ensures HasRole(caller, TEACHER) && Present(id) ==>
        match IndexOf(old(materials), id.value)
        case None => r == NotFound
        case Some(k) =>
          if old(materials)[k].uploadedBy != caller.value.sub then r == NotUploader
          else if !IsMaterialType(Merged(old(materials)[k], edit).materialType) then r == ServerError
          else r == Done(Merged(old(materials)[k], edit)) && materials == old(materials)[k := r.material]
      ensures !r.Done? ==> materials == old(materials)
    {
      if !HasRole(caller, TEACHER) {
        return Rejected;
      }
      if !Present(id) {
        return BadRequest;
      }
      var found := IndexOf(materials, id.value);
      if found.None? {
        return NotFound;
      }
      var k := found.value;
      var m := materials[k];
      if m.uploadedBy != caller.value.sub {
        return NotUploader;
      }
      m := m.(title := if Present(edit.title) then edit.title.value else m.title);
      m := m.(description := if Present(edit.description) then edit.description else m.description);
      m := m.(fileUrl := if Present(edit.fileUrl) then edit.fileUrl.value else m.fileUrl);
      m := m.(materialType := if Present(edit.materialType) then edit.materialType.value else m.materialType);
      if !IsMaterialType(m.materialType) {
        // the enum validator rejects the save
        return ServerError;
      }
      materials := materials[k := m];
      r := Done(m);
    }

    /** DELETE: the uploader removes the material; every other material stays, in order. */
    method Delete(caller: Option<Token>, id: Option<string>) returns (r: Outcome)
      requires Valid()
      modifies this
      ensures Valid()
      ensures !HasRole(caller, TEACHER) ==> r == Rejected
      ensures HasRole(caller, TEACHER) && !Present(id) ==> r == BadRequest
      ensures HasRole(caller, TEACHER) && Present(id) ==>
        match IndexOf(old(materials), id.value)
        case None => r == NotFound
        case Some(k) =>
          if old(materials)[k].uploadedBy != caller.value.sub then r == NotUploader
          else r == Done(old(materials)[k]) && materials == old(materials)[..k] + old(materials)[k + 1..]
      ensures !r.Done? ==> materials == old(materials)
      ensures r.Done? ==> forall m :: m in materials <==> m in old(materials) && m.id != id.value
    {
      if !HasRole(caller, TEACHER) {
        return Rejected;
      }
      if !Present(id) {
        return BadRequest;
      }
      var found := IndexOf(materials, id.value);
      if found.None? {
        return NotFound;
      }
      var k := found.value;
      if materials[k].uploadedBy != caller.value.sub {
        return NotUploader;
      }
      r := Done(materials[k]);
      RemoveAtKeepsOthers(materials, k);
      materials := materials[..k] + materials[k + 1..];
    }
  }

  /** Removing the only material with an id keeps exactly the others, and their ids stay unique. */
  lemma RemoveAtKeepsOthers(materials: seq<Material>, k: nat)
    requires UniqueIds(materials) && k < |materials|
    ensures UniqueIds(materials[..k] + materials[k + 1..])
    ensures forall m :: m in materials[..k] + materials[k + 1..] <==> m in materials && m.id != materials[k].id
  {
    var rest := materials[..k] + materials[k + 1..];
    assert forall i :: 0 <= i < |rest| ==> rest[i] == materials[if i < k then i else i + 1];
    forall m | m in materials && m.id != materials[k].id
      ensures m in rest
    {
      var i :| 0 <= i < |materials| && materials[i] == m;
      assert i != k;
      assert rest[if i < k then i else i - 1] == m;
    }
  }
}
