/** backEnd/services/materials_service.py: the materials table and the order queue. */
module MaterialsService {
  import opened Wrappers
  import opened Seqs
  import opened Database

  /** The body of `create_material`: every column, `quantity` possibly null. */
  datatype MaterialCreate = MaterialCreate(name: string, color: string, quantity: Option<int>, unit: string, required: int)

  /**
   * One supplied field of a `MaterialUpdate`; an explicit null is `None`: `SetQuantity(None)` is
   * rewritten to 0, `SetRequired(None)` stores NULL.
   */
  datatype MaterialField =
    | SetName(name: string)
    | SetColor(color: string)
    | SetQuantity(quantity: Option<int>)
    | SetUnit(unit: string)
    | SetRequired(required: Option<int>)

  function NameOf(f: MaterialField): Option<string> { if f.SetName? then Some(f.name) else None }
  function ColorOf(f: MaterialField): Option<string> { if f.SetColor? then Some(f.color) else None }
  function QuantityOf(f: MaterialField): Option<Option<int>> { if f.SetQuantity? then Some(f.quantity) else None }
  function UnitOf(f: MaterialField): Option<string> { if f.SetUnit? then Some(f.unit) else None }
  function RequiredOf(f: MaterialField): Option<Option<int>> { if f.SetRequired? then Some(f.required) else None }

  /** One `setattr` of the update loop; a null quantity is stored as 0. */
  function Assign(m: Material, f: MaterialField): Material {
    match f
    case SetName(v) => m.(name := v)
    case SetColor(v) => m.(color := v)
    case SetQuantity(v) => m.(quantity := v.GetOr(0))
    case SetUnit(v) => m.(unit := v)
    case SetRequired(v) => m.(required := v)
  }

  /**
   * The row after the update loop has run over `patch`: each column holds the last value
   * supplied for it (a null quantity read as 0, a null `required` kept as NULL), or its old value
   * when none was supplied.
   */
  function Patched(m: Material, patch: seq<MaterialField>): (r: Material)
    ensures r.id == m.id
    ensures r.name == Last(patch, NameOf).GetOr(m.name)
    ensures r.color == Last(patch, ColorOf).GetOr(m.color)
    ensures r.quantity == (if Last(patch, QuantityOf).Some? then Last(patch, QuantityOf).value.GetOr(0) else m.quantity)
    ensures r.unit == Last(patch, UnitOf).GetOr(m.unit)
    ensures r.required == Last(patch, RequiredOf).GetOr(m.required)
  {
    if patch == [] then m else Assign(Patched(m, patch[..|patch| - 1]), patch[|patch| - 1])
  }

  /** Sending the same update twice leaves the row as sending it once. */
  lemma PatchedTwice(m: Material, patch: seq<MaterialField>)
    ensures Patched(Patched(m, patch), patch) == Patched(m, patch)
  {
  }

  /** `create_material`: inserts a row under a fresh id, with a null quantity stored as 0. */
  method CreateMaterial(db: Database, material: MaterialCreate) returns (r: Material)
    requires db.Valid()
    modifies db`materials, db`nextMaterialId
    ensures db.Valid()
    ensures r.id !in old(db.materials)
    ensures r == Material(r.id, material.name, material.color, material.quantity.GetOr(0), material.unit, Some(material.required))
    ensures db.materials == old(db.materials)[r.id := r]
  {
    var quantity := if material.quantity.None? then 0 else material.quantity.value;
    r := Material(db.nextMaterialId, material.name, material.color, quantity, material.unit, Some(material.required));
    db.materials := db.materials[r.id := r];
    db.nextMaterialId := db.nextMaterialId + 1;
  }

  /** `update_material`: `None` for an unknown id; otherwise applies the supplied fields in place. */
  method UpdateMaterial(db: Database, id: int, patch: seq<MaterialField>) returns (r: Option<Material>)
    requires db.Valid()
    modifies db`materials
    ensures db.Valid()
    ensures id !in old(db.materials) ==> r == None && db.materials == old(db.materials)
    ensures id in old(db.materials) ==>
      && db.materials == old(db.materials)[id := Patched(old(db.materials)[id], patch)]
      && r == Some(db.materials[id])
  {
    if id !in db.materials {
      return None;
    }
    var i := 0;
    while i < |patch|
      invariant 0 <= i <= |patch|
      invariant db.materials == old(db.materials)[id := Patched(old(db.materials)[id], patch[..i])]
    {
      assert patch[..i + 1][..i] == patch[..i];
      db.materials := db.materials[id := Assign(db.materials[id], patch[i])];
      i := i + 1;
    }
    assert patch[..i] == patch;
    r := Some(db.materials[id]);
  }

  /** `delete_material`: `false` for an unknown id; otherwise the row is gone. */
  method DeleteMaterial(db: Database, id: int) returns (deleted: bool)
    requires db.Valid()
    modifies db`materials
    ensures db.Valid()
    ensures deleted <==> id in old(db.materials)
    ensures db.materials == old(db.materials) - {id}
  {
    if id !in db.materials {
      return false;
    }
    db.materials := db.materials - {id};
    deleted := true;
  }

  /** One supplied field of an `OrderQueueUpdate`; an explicit null is `None` and is stored as NULL. */
  datatype QueueField =
    | SetStatus(status: Option<string>)
    | SetCanFulfill(canFulfill: Option<bool>)
    | SetShortageReason(shortageReason: Option<string>)

  function StatusOf(f: QueueField): Option<Option<string>> { if f.SetStatus? then Some(f.status) else None }
  function CanFulfillOf(f: QueueField): Option<Option<bool>> { if f.SetCanFulfill? then Some(f.canFulfill) else None }
  function ShortageReasonOf(f: QueueField): Option<Option<string>> { if f.SetShortageReason? then Some(f.shortageReason) else None }

  function AssignQueue(e: QueueEntry, f: QueueField): QueueEntry {
    match f
    case SetStatus(v) => e.(status := v)
    case SetCanFulfill(v) => e.(canFulfill := v)
    case SetShortageReason(v) => e.(shortageReason := v)
  }

  /** The queue entry after the update loop: supplied columns take their last value, the rest keep theirs. */
  function PatchedQueue(e: QueueEntry, patch: seq<QueueField>): (r: QueueEntry)
    ensures r.id == e.id && r.customer == e.customer && r.email == e.email
    ensures r.status == Last(patch, StatusOf).GetOr(e.status)
    ensures r.canFulfill == Last(patch, CanFulfillOf).GetOr(e.canFulfill)
    ensures r.shortageReason == Last(patch, ShortageReasonOf).GetOr(e.shortageReason)
  {
    if patch == [] then e else AssignQueue(PatchedQueue(e, patch[..|patch| - 1]), patch[|patch| - 1])
  }

  /** Sending the same update twice leaves the row as sending it once. */
  lemma PatchedQueueTwice(e: QueueEntry, patch: seq<QueueField>)
    ensures PatchedQueue(PatchedQueue(e, patch), patch) == PatchedQueue(e, patch)
  {
  }

  /** `update_order_queue_status`: `None` for an unknown id; otherwise applies the supplied fields in place. */
  method UpdateOrderQueueStatus(db: Database, id: string, patch: seq<QueueField>) returns (r: Option<QueueEntry>)
    requires db.Valid()
    modifies db`orderQueue
    ensures db.Valid()
    ensures id !in old(db.orderQueue) ==> r == None && db.orderQueue == old(db.orderQueue)
    ensures id in old(db.orderQueue) ==>
      && db.orderQueue == old(db.orderQueue)[id := PatchedQueue(old(db.orderQueue)[id], patch)]
      && r == Some(db.orderQueue[id])
  {
    if id !in db.orderQueue {
      return None;
    }
    var i := 0;
    while i < |patch|
      invariant 0 <= i <= |patch|
      invariant db.orderQueue == old(db.orderQueue)[id := PatchedQueue(old(db.orderQueue)[id], patch[..i])]
    {
      assert patch[..i + 1][..i] == patch[..i];
      db.orderQueue := db.orderQueue[id := AssignQueue(db.orderQueue[id], patch[i])];
      i := i + 1;
    }
    assert patch[..i] == patch;
    r := Some(db.orderQueue[id]);
  }

  /** `delete_order_queue_item`: `false` for an unknown id; otherwise the entry is gone. */
  method DeleteOrderQueueItem(db: Database, id: string) returns (deleted: bool)
    requires db.Valid()
    modifies db`orderQueue
    ensures db.Valid()
    ensures deleted <==> id in old(db.orderQueue)
    ensures db.orderQueue == old(db.orderQueue) - {id}
  {
    if id !in db.orderQueue {
      return false;
    }
    db.orderQueue := db.orderQueue - {id};
    deleted := true;
  }
}
