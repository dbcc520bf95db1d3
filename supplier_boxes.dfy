/** The supplier-boxes router: boxes numbered uniquely per supplier, weight movements that keep
    a box's weight and its disponível / em_uso status in step, the soft delete, and the
    active-only listing. Weights are integer grams. */
module SupplierBoxes {
  import opened Common

  const Entrada := "entrada"
  const Saida := "saída"
  const Disponivel := "disponível"
  const EmUso := "em_uso"

  datatype SupplierBox = SupplierBox(
    id: int, supplierId: int, boxNumber: string, boxType: string, capacity: Option<int>,
    currentWeight: int, status: string, notes: string, isActive: bool)

  /** The body of POST /supplier-boxes. */
  datatype BoxRequest = BoxRequest(supplierId: int, boxNumber: string, boxType: string, capacity: Option<int>, notes: string)

  /** The body of POST /supplier-boxes/{id}/movements; it names a box of its own. */
  datatype MovementRequest = MovementRequest(supplierBoxId: int, movementType: string, weight: int, notes: string)

  datatype BoxMovement = BoxMovement(
    id: int, supplierBoxId: int, movementType: string, weight: int, notes: string, userId: int)

  datatype BoxError = SupplierNotFound | BoxNotFound | DuplicateBoxNumber | InsufficientWeight {
    function StatusCode(): int {
      if SupplierNotFound? || BoxNotFound? then 404 else 400
    }
  }

  function HasId(id: int): SupplierBox -> bool {
    (b: SupplierBox) => b.id == id
  }

  function SameNumber(supplierId: int, boxNumber: string): SupplierBox -> bool {
    (b: SupplierBox) => b.supplierId == supplierId && b.boxNumber == boxNumber
  }

  // ---------------------------------------------------------------------------
  // Weight and status of one box

  /** The weight after a movement; `None` when an outflow asks for more than the box holds.
      Other kinds of movement leave the weight alone. */
  function MovedWeight(weight: int, movementType: string, amount: int): Option<int> {
    if movementType == Entrada then Some(weight + amount)
    else if movementType == Saida then (if weight < amount then None else Some(weight - amount))
    else Some(weight)
  }

  /** The status set after a movement: disponível when empty, em_uso when holding something,
      unchanged otherwise. */
  function StatusForWeight(weight: int, status: string): string {
    if weight == 0 then Disponivel else if weight > 0 then EmUso else status
  }

  /** The boxes after a movement on box `boxId`, or the error the endpoint raises. */
  function AfterMovement(boxes: seq<SupplierBox>, boxId: int, movement: MovementRequest): Result<seq<SupplierBox>, BoxError> {
    match FindFirst(boxes, HasId(boxId))
    case None => Err(BoxNotFound)
    case Some(k) =>
      match MovedWeight(boxes[k].currentWeight, movement.movementType, movement.weight)
      case None => Err(InsufficientWeight)
      case Some(w) => Ok(boxes[k := boxes[k].(currentWeight := w, status := StatusForWeight(w, boxes[k].status))])
  }

  /** The box's status agrees with its weight. */
  predicate StatusMatchesWeight(box: SupplierBox) {
    box.currentWeight >= 0 && (box.status == Disponivel <==> box.currentWeight == 0) &&
    (box.status == EmUso <==> box.currentWeight > 0)
  }

  /** A movement fails with 404 exactly when no box has the id and with 400 exactly when it is an
      outflow heavier than the box's contents; otherwise it changes that box's weight and status
      alone, and from a non-negative weight and movement the box ends with a non-negative weight
      and a status that agrees with it. */
  lemma MovementKeepsWeightAndStatus(boxes: seq<SupplierBox>, boxId: int, movement: MovementRequest)
    ensures AfterMovement(boxes, boxId, movement) == Err(BoxNotFound) <==>
      forall j :: 0 <= j < |boxes| ==> boxes[j].id != boxId
    ensures AfterMovement(boxes, boxId, movement) == Err(InsufficientWeight) <==>
      exists k :: 0 <= k < |boxes| && FindFirst(boxes, HasId(boxId)) == Some(k)
        && movement.movementType == Saida && boxes[k].currentWeight < movement.weight
    ensures AfterMovement(boxes, boxId, movement).Ok? ==>
      var after := AfterMovement(boxes, boxId, movement).value;
      var k := FindFirst(boxes, HasId(boxId)).value;
      && |after| == |boxes| && boxes[k].id == boxId
      && Some(after[k].currentWeight) == MovedWeight(boxes[k].currentWeight, movement.movementType, movement.weight)
      && after[k] == boxes[k].(currentWeight := after[k].currentWeight, status := after[k].status)
      && (forall j :: 0 <= j < |boxes| && j != k ==> after[j] == boxes[j])
      && (boxes[k].currentWeight >= 0 && movement.weight >= 0 ==> StatusMatchesWeight(after[k]))
  {
    assert Disponivel != EmUso by {
      assert |Disponivel| == 10 && |EmUso| == 6;
    }
  }

  /** On a non-negative weight an outflow undoes an inflow of the same weight, and the box is
      back to the status its weight calls for. */
  lemma InflowThenOutflowRestores(weight: int, amount: int, status: string)
    requires weight >= 0
    ensures MovedWeight(weight, Entrada, amount) == Some(weight + amount)
    ensures MovedWeight(weight + amount, Saida, amount) == Some(weight)
    ensures StatusForWeight(weight, StatusForWeight(weight + amount, status)) == StatusForWeight(weight, EmUso)
  {
    assert Saida != Entrada by {
      assert |Saida| == 5 && |Entrada| == 7;
    }
  }

  // ---------------------------------------------------------------------------
  // Listing

  /** The listing's row filter: active boxes, of the given supplier and status when those are
      given and non-empty. */
  predicate Listed(box: SupplierBox, supplierId: Option<int>, status: Option<string>) {
    && (supplierId.Some? && supplierId.value != 0 ==> box.supplierId == supplierId.value)
    && (status.Some? && status.value != "" ==> box.status == status.value)
    && box.isActive
  }

  /** GET /supplier-boxes: the listed boxes, newest first. Rows are appended in creation
      order, so `created_at DESC` is the table order reversed. */
  function GetSupplierBoxes(boxes: seq<SupplierBox>, supplierId: Option<int>, status: Option<string>): seq<SupplierBox> {
    Reverse(Filter(boxes, (b: SupplierBox) => Listed(b, supplierId, status)))
  }

  /** Box ids grow along the table, as the registry hands them out in creation order. */
  predicate IdsIncreasing(boxes: seq<SupplierBox>) {
    forall i, j :: 0 <= i < j < |boxes| ==> boxes[i].id < boxes[j].id
  }

  /** The listing holds exactly the active boxes that pass the given filters; without filters
      it is every active box; and when ids follow creation order, a newer box comes first. */
  lemma ListingShowsActiveBoxes(boxes: seq<SupplierBox>, supplierId: Option<int>, status: Option<string>)
    ensures var rows := GetSupplierBoxes(boxes, supplierId, status);
      && (forall i :: 0 <= i < |rows| ==> rows[i] in boxes && rows[i].isActive && Listed(rows[i], supplierId, status))
      && (forall j :: 0 <= j < |boxes| && Listed(boxes[j], supplierId, status) ==> boxes[j] in rows)
    ensures IdsIncreasing(boxes) ==>
      var rows := GetSupplierBoxes(boxes, supplierId, status);
      forall i, j :: 0 <= i < j < |rows| ==> rows[i].id > rows[j].id
    ensures supplierId.None? && status.None? ==>
      GetSupplierBoxes(boxes, supplierId, status) == Reverse(Filter(boxes, (b: SupplierBox) => b.isActive))
  {
    var p := (b: SupplierBox) => Listed(b, supplierId, status);
    FilterByIndex(boxes, p);
    ReverseMembers(Filter(boxes, p));
    if IdsIncreasing(boxes) {
      NewestFirst(boxes, p);
    }
    if supplierId.None? && status.None? {
      FilterCongruent(boxes, p, (b: SupplierBox) => b.isActive);
    }
  }

  /** Filtering a table whose ids grow, then reversing it, lists ids from the largest down. */
  lemma NewestFirst(boxes: seq<SupplierBox>, p: SupplierBox -> bool)
    requires IdsIncreasing(boxes)
    ensures forall i, j :: 0 <= i < j < |Reverse(Filter(boxes, p))| ==>
      Reverse(Filter(boxes, p))[i].id > Reverse(Filter(boxes, p))[j].id
  {
    FilterKeepsIdsIncreasing(boxes, p);
  }

  /** Dropping rows keeps the remaining ids increasing. */
  lemma {:induction false} FilterKeepsIdsIncreasing(boxes: seq<SupplierBox>, p: SupplierBox -> bool)
    requires IdsIncreasing(boxes)
    ensures IdsIncreasing(Filter(boxes, p))
  {
    if boxes != [] {
      var tail := Filter(boxes[1..], p);
      FilterKeepsIdsIncreasing(boxes[1..], p);
      forall x | x in tail
        ensures boxes[0].id < x.id
      {
        var j :| 0 <= j < |boxes[1..]| && boxes[1..][j] == x;
        assert boxes[j + 1] == x;
      }
    }
  }

  /** The table after a soft delete of row `k`. */
  function Deactivated(boxes: seq<SupplierBox>, k: nat): seq<SupplierBox>
    requires k < |boxes|
  {
    boxes[k := boxes[k].(isActive := false)]
  }

  /** A deactivated box keeps its row but leaves the listing, whatever the filters. */
  lemma DeletedBoxLeavesListing(boxes: seq<SupplierBox>, k: nat, supplierId: Option<int>, status: Option<string>)
    requires k < |boxes|
    requires forall i, j :: 0 <= i < j < |boxes| ==> boxes[i].id != boxes[j].id
    ensures |Deactivated(boxes, k)| == |boxes| && Deactivated(boxes, k)[k] == boxes[k].(isActive := false)
    ensures forall i :: 0 <= i < |GetSupplierBoxes(Deactivated(boxes, k), supplierId, status)| ==>
      GetSupplierBoxes(Deactivated(boxes, k), supplierId, status)[i].id != boxes[k].id
  {
    var after := Deactivated(boxes, k);
    var rows := GetSupplierBoxes(after, supplierId, status);
    ListingShowsActiveBoxes(after, supplierId, status);
    forall i | 0 <= i < |rows|
      ensures rows[i].id != boxes[k].id
    {
      var j :| 0 <= j < |after| && after[j] == rows[i];
      assert j != k;
    }
  }

  // ---------------------------------------------------------------------------
  // The tables the router works on

  /** Rewriting one box with its id, supplier and number kept keeps ids increasing and below the
      next id, and numbers unique per supplier. */
  lemma RewrittenBoxKeepsKeys(boxes: seq<SupplierBox>, k: nat, box: SupplierBox, nextId: int)
    requires k < |boxes|
    requires box.id == boxes[k].id && box.supplierId == boxes[k].supplierId && box.boxNumber == boxes[k].boxNumber
    requires IdsIncreasing(boxes)
    requires forall i :: 0 <= i < |boxes| ==> boxes[i].id < nextId
    requires NumbersUnique(boxes)
    ensures var rewritten := boxes[k := box];
      && IdsIncreasing(rewritten)
      && (forall i :: 0 <= i < |rewritten| ==> rewritten[i].id < nextId)
      && NumbersUnique(rewritten)
  {
  }

  /** No two boxes, active or not, share a supplier and a box number. */
  predicate NumbersUnique(boxes: seq<SupplierBox>) {
    forall i, j :: 0 <= i < j < |boxes| ==> !(boxes[i].supplierId == boxes[j].supplierId && boxes[i].boxNumber == boxes[j].boxNumber)
  }

  predicate HasNumber(boxes: seq<SupplierBox>, supplierId: int, boxNumber: string) {
    exists j :: 0 <= j < |boxes| && boxes[j].supplierId == supplierId && boxes[j].boxNumber == boxNumber
  }

  class BoxRegistry {
    var suppliers: set<int>
    var boxes: seq<SupplierBox>
    var movements: seq<BoxMovement>
    var nextBoxId: int
    var nextMovementId: int

    /** Box ids grow in creation order and stay below the next id, and box numbers are unique
        per supplier. */
    ghost predicate Valid()
      reads this
    {
      && IdsIncreasing(boxes)
      && (forall i :: 0 <= i < |boxes| ==> boxes[i].id < nextBoxId)
      && NumbersUnique(boxes)
    }

    constructor (suppliers: set<int>)
      ensures Valid()
      ensures this.suppliers == suppliers && boxes == [] && movements == []
      ensures nextBoxId == 1 && nextMovementId == 1
    {
      this.suppliers := suppliers;
      boxes := [];
      movements := [];
      nextBoxId := 1;
      nextMovementId := 1;
    }

    /** POST /supplier-boxes: 404 for an unknown supplier, 400 when the supplier already has a
        box, active or not, with that number; otherwise a new empty, available, active box. */
    method CreateSupplierBox(request: BoxRequest) returns (r: Result<SupplierBox, BoxError>)
      requires Valid()
      modifies this
      ensures Valid()
      ensures suppliers == old(suppliers) && movements == old(movements) && nextMovementId == old(nextMovementId)
      ensures request.supplierId !in suppliers ==> r == Err(SupplierNotFound)
      ensures request.supplierId in suppliers && HasNumber(old(boxes), request.supplierId, request.boxNumber) ==>
        r == Err(DuplicateBoxNumber)
      ensures request.supplierId in suppliers && !HasNumber(old(boxes), request.supplierId, request.boxNumber) ==> r.Ok?
      ensures r.Err? ==> boxes == old(boxes) && nextBoxId == old(nextBoxId)
      ensures r.Ok? ==>
        && r.value == SupplierBox(old(nextBoxId), request.supplierId, request.boxNumber, request.boxType, request.capacity,
                                  0, Disponivel, request.notes, true)
        && boxes == old(boxes) + [r.value]
        && nextBoxId == old(nextBoxId) + 1
    {
      if request.supplierId !in suppliers {
        return Err(SupplierNotFound);
      }
      if FindFirst(boxes, SameNumber(request.supplierId, request.boxNumber)).Some? {
        return Err(DuplicateBoxNumber);
      }
      var box := SupplierBox(nextBoxId, request.supplierId, request.boxNumber, request.boxType, request.capacity,
                             0, Disponivel, request.notes, true);
      boxes := boxes + [box];
      nextBoxId := nextBoxId + 1;
      r := Ok(box);
    }

    /** POST /supplier-boxes/{boxId}/movements by user `userId`: the box's weight and status
        change and the movement is recorded together, or nothing changes. */
    method CreateBoxMovement(boxId: int, movement: MovementRequest, userId: int) returns (r: Result<BoxMovement, BoxError>)
      requires Valid()
      modifies this
      ensures Valid()
      ensures suppliers == old(suppliers) && nextBoxId == old(nextBoxId)
      ensures AfterMovement(old(boxes), boxId, movement).Err? ==>
        && r == Err(AfterMovement(old(boxes), boxId, movement).error)
        && boxes == old(boxes) && movements == old(movements) && nextMovementId == old(nextMovementId)
      ensures AfterMovement(old(boxes), boxId, movement).Ok? ==>
        && boxes == AfterMovement(old(boxes), boxId, movement).value
        && r == Ok(BoxMovement(old(nextMovementId), movement.supplierBoxId, movement.movementType, movement.weight,
                               movement.notes, userId))
        && movements == old(movements) + [r.value]
        && nextMovementId == old(nextMovementId) + 1
    {
      var found := FindFirst(boxes, HasId(boxId));
      if found.None? {
        return Err(BoxNotFound);
      }
      var k := found.value;
      var row := BoxMovement(nextMovementId, movement.supplierBoxId, movement.movementType, movement.weight, movement.notes, userId);
      var box := boxes[k];
      var weight := box.currentWeight;
      if movement.movementType == Entrada {
        weight := weight + movement.weight;
      } else if movement.movementType == Saida {
        if weight < movement.weight {
          return Err(InsufficientWeight);
        }
        weight := weight - movement.weight;
      }
      var status := StatusForWeight(weight, box.status);
      assert MovedWeight(box.currentWeight, movement.movementType, movement.weight) == Some(weight);
      RewrittenBoxKeepsKeys(boxes, k, box.(currentWeight := weight, status := status), nextBoxId);
      boxes := boxes[k := box.(currentWeight := weight, status := status)];
      movements := movements + [row];
      nextMovementId := nextMovementId + 1;
      r := Ok(row);
    }

    /** DELETE /supplier-boxes/{boxId}: marks the box inactive and keeps its row. */
    method DeleteSupplierBox(boxId: int) returns (r: Result<(), BoxError>)
      requires Valid()
      modifies this
      ensures Valid()
      ensures suppliers == old(suppliers) && movements == old(movements)
      ensures nextBoxId == old(nextBoxId) && nextMovementId == old(nextMovementId)
      ensures FindFirst(old(boxes), HasId(boxId)).None? ==> r == Err(BoxNotFound) && boxes == old(boxes)
      ensures FindFirst(old(boxes), HasId(boxId)).Some? ==>
        r == Ok(()) && boxes == Deactivated(old(boxes), FindFirst(old(boxes), HasId(boxId)).value)
    {
      var found := FindFirst(boxes, HasId(boxId));
      if found.None? {
        return Err(BoxNotFound);
      }
      boxes := Deactivated(boxes, found.value);
      r := Ok(());
    }
  }
}
