/** The locations router: storage locations (soft-deleted, listed when active), the stock of
    each product at each location (one row per product and location), the stock overview grouped
    by location name, and the low-stock report. Quantities are integer units and temperatures
    integer degrees. */
module Locations {
  import opened Common

  datatype Location = Location(
    id: int, name: string, description: string, locationType: string,
    temperature: Option<int>, capacity: Option<int>, isActive: bool)

  /** The body of PUT /locations/{id}: only the supplied fields are written; a supplied
      temperature or capacity may be null. */
  datatype LocationUpdate = LocationUpdate(
    name: Option<string>, description: Option<string>, locationType: Option<string>,
    temperature: Option<Option<int>>, capacity: Option<Option<int>>, isActive: Option<bool>)

  /** A product's stock at one location. */
  datatype ProductLocation = ProductLocation(
    id: int, productId: int, locationId: int, quantity: int, minQuantity: int, maxQuantity: int, notes: string)

  /** The body of POST /locations/{id}/products. */
  datatype ProductLocationRequest = ProductLocationRequest(
    productId: int, quantity: int, minQuantity: int, maxQuantity: int, notes: string)

  /** The body of PUT /locations/{id}/products/{id}: only the supplied fields are written. */
  datatype ProductLocationUpdate = ProductLocationUpdate(
    quantity: Option<int>, minQuantity: Option<int>, maxQuantity: Option<int>, notes: Option<string>)

  datatype LocationError = LocationNotFound | ProductNotFound | ProductAlreadyInLocation | ProductLocationNotFound {
    function StatusCode(): int {
      if ProductAlreadyInLocation? then 400 else 404
    }
  }

  function HasId(id: int): Location -> bool {
    (l: Location) => l.id == id
  }

  function Pair(productId: int, locationId: int): ProductLocation -> bool {
    (pl: ProductLocation) => pl.productId == productId && pl.locationId == locationId
  }

  /** The row with id `id` that also belongs to location `locationId`. */
  function AtLocation(id: int, locationId: int): ProductLocation -> bool {
    (pl: ProductLocation) => pl.id == id && pl.locationId == locationId
  }

  // ---------------------------------------------------------------------------
  // Locations

  /** The location after a partial update. */
  function LocationUpdated(location: Location, update: LocationUpdate): Location {
    location.(
      name := if update.name.Some? then update.name.value else location.name,
      description := if update.description.Some? then update.description.value else location.description,
      locationType := if update.locationType.Some? then update.locationType.value else location.locationType,
      temperature := if update.temperature.Some? then update.temperature.value else location.temperature,
      capacity := if update.capacity.Some? then update.capacity.value else location.capacity,
      isActive := if update.isActive.Some? then update.isActive.value else location.isActive)
  }

  /** An update writes every supplied field, keeps every other one and never changes the id;
      an empty update changes nothing, and applying an update twice is applying it once. */
  lemma LocationUpdateWritesOnlySuppliedFields(location: Location, update: LocationUpdate)
    ensures var r := LocationUpdated(location, update);
      && r.id == location.id
      && (if update.name.Some? then r.name == update.name.value else r.name == location.name)
      && (if update.description.Some? then r.description == update.description.value else r.description == location.description)
      && (if update.locationType.Some? then r.locationType == update.locationType.value else r.locationType == location.locationType)
      && (if update.temperature.Some? then r.temperature == update.temperature.value else r.temperature == location.temperature)
      && (if update.capacity.Some? then r.capacity == update.capacity.value else r.capacity == location.capacity)
      && (if update.isActive.Some? then r.isActive == update.isActive.value else r.isActive == location.isActive)
    ensures LocationUpdated(location, LocationUpdate(None, None, None, None, None, None)) == location
    ensures LocationUpdated(LocationUpdated(location, update), update) == LocationUpdated(location, update)
  {
  }

  /** The listing's row filter: active locations, of the given type when one is given and
      non-empty. */
  predicate LocationListed(location: Location, locationType: Option<string>) {
    location.isActive && (locationType.Some? && locationType.value != "" ==> location.locationType == locationType.value)
  }

  /** GET /locations. */
  function GetLocations(locations: seq<Location>, locationType: Option<string>, skip: nat, limit: nat): seq<Location> {
    Page(Filter(locations, (l: Location) => LocationListed(l, locationType)), skip, limit)
  }

  /** Every listed location is an active one of the table, of the requested type; a first page
      large enough lists every such location. */
  lemma ListingShowsActiveLocations(locations: seq<Location>, locationType: Option<string>, skip: nat, limit: nat)
    ensures var rows := GetLocations(locations, locationType, skip, limit);
      forall i :: 0 <= i < |rows| ==> rows[i] in locations && rows[i].isActive && LocationListed(rows[i], locationType)
    ensures skip == 0 && limit >= |locations| ==>
      forall j :: 0 <= j < |locations| && LocationListed(locations[j], locationType) ==>
        locations[j] in GetLocations(locations, locationType, skip, limit)
  {
    FilterByIndex(locations, (l: Location) => LocationListed(l, locationType));
    if skip == 0 && limit >= |locations| {
      assert GetLocations(locations, locationType, skip, limit) == Filter(locations, (l: Location) => LocationListed(l, locationType));
    }
  }

  // ---------------------------------------------------------------------------
  // Product locations

  /** The row after a partial update. */
  function ProductLocationUpdated(pl: ProductLocation, update: ProductLocationUpdate): ProductLocation {
    pl.(
      quantity := if update.quantity.Some? then update.quantity.value else pl.quantity,
      minQuantity := if update.minQuantity.Some? then update.minQuantity.value else pl.minQuantity,
      maxQuantity := if update.maxQuantity.Some? then update.maxQuantity.value else pl.maxQuantity,
      notes := if update.notes.Some? then update.notes.value else pl.notes)
  }

  /** An update writes every supplied field and keeps the row's id, product, location and every
      field not supplied. */
  lemma ProductLocationUpdateWritesOnlySuppliedFields(pl: ProductLocation, update: ProductLocationUpdate)
    ensures var r := ProductLocationUpdated(pl, update);
      && r.id == pl.id && r.productId == pl.productId && r.locationId == pl.locationId
      && (if update.quantity.Some? then r.quantity == update.quantity.value else r.quantity == pl.quantity)
      && (if update.minQuantity.Some? then r.minQuantity == update.minQuantity.value else r.minQuantity == pl.minQuantity)
      && (if update.maxQuantity.Some? then r.maxQuantity == update.maxQuantity.value else r.maxQuantity == pl.maxQuantity)
      && (if update.notes.Some? then r.notes == update.notes.value else r.notes == pl.notes)
    ensures ProductLocationUpdated(pl, ProductLocationUpdate(None, None, None, None)) == pl
  {
  }

  /** No product is recorded twice at one location. */
  predicate PairsUnique(pls: seq<ProductLocation>) {
    forall i, j :: 0 <= i < j < |pls| ==> !(pls[i].productId == pls[j].productId && pls[i].locationId == pls[j].locationId)
  }

  /** Deleting one row keeps row ids distinct and below the next id, and pairs unique. */
  lemma DeletedRowKeepsKeys(rows: seq<ProductLocation>, k: nat, nextId: int)
    requires k < |rows|
    requires forall i, j :: 0 <= i < j < |rows| ==> rows[i].id != rows[j].id
    requires forall i :: 0 <= i < |rows| ==> rows[i].id < nextId
    requires PairsUnique(rows)
    ensures var rest := rows[..k] + rows[k + 1..];
      && (forall i, j :: 0 <= i < j < |rest| ==> rest[i].id != rest[j].id)
      && (forall i :: 0 <= i < |rest| ==> rest[i].id < nextId)
      && PairsUnique(rest)
  {
    var rest := rows[..k] + rows[k + 1..];
    assert forall i :: 0 <= i < |rest| ==> rest[i] == rows[if i < k then i else i + 1];
  }

  predicate HasPair(pls: seq<ProductLocation>, productId: int, locationId: int) {
    exists j :: 0 <= j < |pls| && pls[j].productId == productId && pls[j].locationId == locationId
  }

  predicate HasLocation(locations: seq<Location>, id: int) {
    exists j :: 0 <= j < |locations| && locations[j].id == id
  }

  // ---------------------------------------------------------------------------
  // Stock overview and low stock

  /** The product fields the reports show. */
  datatype StockProduct = StockProduct(id: int, name: string, supplierName: string, unit: string)

  /** A product-location row joined with its location and its product. */
  datatype StockRow = StockRow(item: ProductLocation, location: Location, product: StockProduct)

  datatype LocationInfo = LocationInfo(id: int, name: string, locationType: string, temperature: Option<int>)

  datatype ProductEntry = ProductEntry(
    id: int, name: string, supplier: string, quantity: int, minQuantity: int, maxQuantity: int, unit: string, notes: string)

  /** One group of the overview: a location and the products stored there. */
  datatype LocationStock = LocationStock(location: LocationInfo, products: seq<ProductEntry>)

  function InfoOf(row: StockRow): LocationInfo {
    LocationInfo(row.location.id, row.location.name, row.location.locationType, row.location.temperature)
  }

  function EntryOf(row: StockRow): ProductEntry {
    ProductEntry(row.product.id, row.product.name, row.product.supplierName, row.item.quantity,
                 row.item.minQuantity, row.item.maxQuantity, row.product.unit, row.item.notes)
  }

  function Entries(rows: seq<StockRow>): (r: seq<ProductEntry>)
    ensures |r| == |rows|
    ensures forall i :: 0 <= i < |rows| ==> r[i] == EntryOf(rows[i])
  {
    seq(|rows|, i requires 0 <= i < |rows| => EntryOf(rows[i]))
  }

  function NameIs(name: string): StockRow -> bool {
    (row: StockRow) => row.location.name == name
  }

  function GroupNamed(name: string): LocationStock -> bool {
    (g: LocationStock) => g.location.name == name
  }

  /** One more row added to its location's group, which is opened if the name is new. */
  function AddRow(groups: seq<LocationStock>, row: StockRow): seq<LocationStock> {
    match FindFirst(groups, GroupNamed(row.location.name))
    case Some(k) => groups[k := groups[k].(products := groups[k].products + [EntryOf(row)])]
    case None => groups + [LocationStock(InfoOf(row), [EntryOf(row)])]
  }

  /** The overview of `data`: its rows grouped by location name, groups in order of first
      appearance. */
  function GroupByName(data: seq<StockRow>): seq<LocationStock> {
    if data == [] then [] else AddRow(GroupByName(data[..|data| - 1]), data[|data| - 1])
  }

  /** GET /locations/stock/overview over the joined rows `data`. */
  method GetStockOverview(data: seq<StockRow>) returns (groups: seq<LocationStock>)
    ensures groups == GroupByName(data)
  {
    groups := [];
    var i := 0;
    while i < |data|
      invariant 0 <= i <= |data|
      invariant groups == GroupByName(data[..i])
    {
      var row := data[i];
      var name := row.location.name;
      ghost var before := groups;
      var found := FindFirst(groups, GroupNamed(name));
      if found.None? {
        groups := groups + [LocationStock(InfoOf(row), [])];
      }
      var k := if found.Some? then found.value else |groups| - 1;
      groups := groups[k := groups[k].(products := groups[k].products + [EntryOf(row)])];
      if found.None? {
        assert [] + [EntryOf(row)] == [EntryOf(row)];
        assert groups == before + [LocationStock(InfoOf(row), [EntryOf(row)])];
      }
      assert groups == AddRow(before, row);
      assert data[..i + 1][..i] == data[..i] && data[..i + 1][i] == row;
      i := i + 1;
    }
    assert data[..i] == data;
  }

  predicate NamesDistinct(groups: seq<LocationStock>) {
    forall i, j :: 0 <= i < j < |groups| ==> groups[i].location.name != groups[j].location.name
  }

  /** Each group holds the entries of exactly the rows with its location's name, in input order. */
  ghost predicate GroupsExact(groups: seq<LocationStock>, data: seq<StockRow>) {
    forall k :: 0 <= k < |groups| ==> GroupExact(groups[k], data)
  }

  ghost predicate GroupExact(group: LocationStock, data: seq<StockRow>) {
    group.products == Entries(Filter(data, NameIs(group.location.name)))
  }

  /** Every row's location name has a group. */
  ghost predicate GroupsCover(groups: seq<LocationStock>, data: seq<StockRow>) {
    forall i :: 0 <= i < |data| ==> FindFirst(groups, GroupNamed(data[i].location.name)).Some?
  }

  /** Each group's location is that of the first row with its name, and groups are in the order
      of those first rows. */
  ghost predicate GroupsFirstSeen(groups: seq<LocationStock>, data: seq<StockRow>) {
    && (forall k :: 0 <= k < |groups| ==> FromFirstRow(groups[k], data))
    && (forall a, b :: 0 <= a < b < |groups| ==> FirstSeenBefore(groups[a], groups[b], data))
  }

  /** The group's location is that of the first row with its name. */
  ghost predicate FromFirstRow(group: LocationStock, data: seq<StockRow>) {
    var first := FindFirst(data, NameIs(group.location.name));
    first.Some? && group.location == InfoOf(data[first.value])
  }

  /** The first row of group `g` comes before the first row of group `h`. */
  ghost predicate FirstSeenBefore(g: LocationStock, h: LocationStock, data: seq<StockRow>) {
    var a, b := FindFirst(data, NameIs(g.location.name)), FindFirst(data, NameIs(h.location.name));
    a.Some? && b.Some? && a.value < b.value
  }

  lemma EntriesAppend(xs: seq<StockRow>, ys: seq<StockRow>)
    ensures Entries(xs + ys) == Entries(xs) + Entries(ys)
  {
    var l, r := Entries(xs + ys), Entries(xs) + Entries(ys);
    assert |l| == |r|;
    forall i | 0 <= i < |l|
      ensures l[i] == r[i]
    {
      if i < |xs| {
        assert (xs + ys)[i] == xs[i];
      } else {
        assert (xs + ys)[i] == ys[i - |xs|];
      }
    }
  }

  /** Filtering `init + [row]` by a name adds the row's entry when the name is the row's. */
  lemma EntriesSnoc(init: seq<StockRow>, row: StockRow, name: string)
    ensures Entries(Filter(init + [row], NameIs(name)))
         == Entries(Filter(init, NameIs(name))) + (if row.location.name == name then [EntryOf(row)] else [])
  {
    FilterAppend(init, [row], NameIs(name));
    assert Filter([row], NameIs(name)) == if row.location.name == name then [row] else [];
    EntriesAppend(Filter(init, NameIs(name)), Filter([row], NameIs(name)));
  }

  lemma AddRowKeepsDistinct(groups: seq<LocationStock>, row: StockRow)
    requires NamesDistinct(groups)
    ensures NamesDistinct(AddRow(groups, row))
  {
  }

  lemma AddRowKeepsExact(groups: seq<LocationStock>, init: seq<StockRow>, row: StockRow)
    requires NamesDistinct(groups) && GroupsExact(groups, init) && GroupsCover(groups, init)
    ensures GroupsExact(AddRow(groups, row), init + [row])
  {
    match FindFirst(groups, GroupNamed(row.location.name))
    case Some(j) => AddToGroupKeepsExact(groups, init, row, j);
    case None => OpenGroupKeepsExact(groups, init, row);
  }

  /** Adding a row to the existing group `j` of its name keeps every group exact. */
  lemma AddToGroupKeepsExact(groups: seq<LocationStock>, init: seq<StockRow>, row: StockRow, j: nat)
    requires NamesDistinct(groups) && GroupsExact(groups, init)
    requires FindFirst(groups, GroupNamed(row.location.name)) == Some(j)
    ensures GroupsExact(AddRow(groups, row), init + [row])
  {
    var r := AddRow(groups, row);
    forall k | 0 <= k < |r|
      ensures GroupExact(r[k], init + [row])
    {
      EntriesSnoc(init, row, r[k].location.name);
      assert GroupExact(groups[k], init);
      if k != j {
        assert r[k] == groups[k];
        assert groups[k].location.name != row.location.name;
      }
    }
  }

  /** Opening a group for a name not seen before keeps every group exact. */
  lemma OpenGroupKeepsExact(groups: seq<LocationStock>, init: seq<StockRow>, row: StockRow)
    requires GroupsExact(groups, init) && GroupsCover(groups, init)
    requires FindFirst(groups, GroupNamed(row.location.name)).None?
    ensures GroupsExact(AddRow(groups, row), init + [row])
  {
    var r := AddRow(groups, row);
    var name := row.location.name;
    forall i | 0 <= i < |init|
      ensures !NameIs(name)(init[i])
    {
      assert FindFirst(groups, GroupNamed(init[i].location.name)).Some?;
    }
    FilterEmpty(init, NameIs(name));
    forall k | 0 <= k < |r|
      ensures GroupExact(r[k], init + [row])
    {
      EntriesSnoc(init, row, r[k].location.name);
      if k < |groups| {
        assert r[k] == groups[k];
        assert GroupExact(groups[k], init);
        assert !GroupNamed(name)(groups[k]);
      }
    }
  }

  lemma {:induction false} FilterEmpty<T(!new)>(xs: seq<T>, p: T -> bool)
    requires forall i :: 0 <= i < |xs| ==> !p(xs[i])
    ensures Filter(xs, p) == []
  {
    if xs != [] {
      FilterEmpty(xs[1..], p);
    }
  }

  lemma AddRowKeepsCover(groups: seq<LocationStock>, init: seq<StockRow>, row: StockRow)
    requires GroupsCover(groups, init)
    ensures GroupsCover(AddRow(groups, row), init + [row])
  {
    var r := AddRow(groups, row);
    var all := init + [row];
    forall i | 0 <= i < |all|
      ensures FindFirst(r, GroupNamed(all[i].location.name)).Some?
    {
      var name := all[i].location.name;
      var k: nat;
      if i < |init| {
        k := FindFirst(groups, GroupNamed(name)).value;
      } else {
        match FindFirst(groups, GroupNamed(name))
        case Some(j) => k := j;
        case None => k := |groups|;
      }
      assert r[k].location.name == name;
      assert GroupNamed(name)(r[k]);
    }
  }

  /** A group taken from its first row stays so when a row is appended. */
  lemma FromFirstRowSnoc(g: LocationStock, init: seq<StockRow>, row: StockRow)
    requires FromFirstRow(g, init)
    ensures FromFirstRow(g, init + [row])
    ensures FindFirst(init + [row], NameIs(g.location.name)) == FindFirst(init, NameIs(g.location.name))
  {
    FindFirstSnoc(init, row, NameIs(g.location.name));
    var i := FindFirst(init, NameIs(g.location.name)).value;
    assert (init + [row])[i] == init[i];
  }

  /** Two groups in first-seen order stay so when a row is appended. */
  lemma FirstSeenBeforeSnoc(g: LocationStock, h: LocationStock, init: seq<StockRow>, row: StockRow)
    requires FirstSeenBefore(g, h, init)
    ensures FirstSeenBefore(g, h, init + [row])
  {
    FindFirstSnoc(init, row, NameIs(g.location.name));
    FindFirstSnoc(init, row, NameIs(h.location.name));
  }

  lemma AddRowKeepsFirstSeen(groups: seq<LocationStock>, init: seq<StockRow>, row: StockRow)
    requires GroupsFirstSeen(groups, init) && GroupsCover(groups, init)
    ensures GroupsFirstSeen(AddRow(groups, row), init + [row])
  {
    match FindFirst(groups, GroupNamed(row.location.name))
    case Some(j) => AddRowToGroupKeepsFirstSeen(groups, init, row, j);
    case None => AddGroupKeepsFirstSeen(groups, init, row);
  }

  lemma AddRowToGroupKeepsFirstSeen(groups: seq<LocationStock>, init: seq<StockRow>, row: StockRow, j: nat)
    requires GroupsFirstSeen(groups, init)
    requires FindFirst(groups, GroupNamed(row.location.name)) == Some(j)
    ensures GroupsFirstSeen(AddRow(groups, row), init + [row])
  {
    var r := AddRow(groups, row);
    var all := init + [row];
    assert forall k :: 0 <= k < |r| ==> r[k].location == groups[k].location;
    forall k | 0 <= k < |r|
      ensures FromFirstRow(r[k], all)
    {
      FromFirstRowSnoc(groups[k], init, row);
    }
    forall a, b | 0 <= a < b < |r|
      ensures FirstSeenBefore(r[a], r[b], all)
    {
      FirstSeenBeforeSnoc(groups[a], groups[b], init, row);
    }
  }

  lemma AddGroupKeepsFirstSeen(groups: seq<LocationStock>, init: seq<StockRow>, row: StockRow)
    requires GroupsFirstSeen(groups, init) && GroupsCover(groups, init)
    requires FindFirst(groups, GroupNamed(row.location.name)).None?
    ensures GroupsFirstSeen(AddRow(groups, row), init + [row])
  {
    var name := row.location.name;
    forall i | 0 <= i < |init|
      ensures !NameIs(name)(init[i])
    {
      assert FindFirst(groups, GroupNamed(init[i].location.name)).Some?;
    }
    FindFirstSnoc(init, row, NameIs(name));
    AddGroupKeepsFromFirstRow(groups, init, row);
    AddGroupKeepsOrder(groups, init, row);
  }

  lemma AddGroupKeepsFromFirstRow(groups: seq<LocationStock>, init: seq<StockRow>, row: StockRow)
    requires forall k :: 0 <= k < |groups| ==> FromFirstRow(groups[k], init)
    requires FindFirst(groups, GroupNamed(row.location.name)).None?
    requires FindFirst(init + [row], NameIs(row.location.name)) == Some(|init|)
    ensures forall k :: 0 <= k < |AddRow(groups, row)| ==> FromFirstRow(AddRow(groups, row)[k], init + [row])
  {
    var r := AddRow(groups, row);
    var all := init + [row];
    forall k | 0 <= k < |r|
      ensures FromFirstRow(r[k], all)
    {
      if k < |groups| {
        assert r[k] == groups[k];
        FromFirstRowSnoc(groups[k], init, row);
      } else {
        assert r[k].location == InfoOf(all[|init|]);
      }
    }
  }

  lemma AddGroupKeepsOrder(groups: seq<LocationStock>, init: seq<StockRow>, row: StockRow)
    requires GroupsFirstSeen(groups, init)
    requires FindFirst(groups, GroupNamed(row.location.name)).None?
    requires FindFirst(init + [row], NameIs(row.location.name)) == Some(|init|)
    ensures forall a, b :: 0 <= a < b < |AddRow(groups, row)| ==>
      FirstSeenBefore(AddRow(groups, row)[a], AddRow(groups, row)[b], init + [row])
  {
    var r := AddRow(groups, row);
    var all := init + [row];
    forall a, b | 0 <= a < b < |r|
      ensures FirstSeenBefore(r[a], r[b], all)
    {
      assert r[a] == groups[a];
      if b < |groups| {
        assert r[b] == groups[b];
        FirstSeenBeforeSnoc(groups[a], groups[b], init, row);
      } else {
        FromFirstRowSnoc(groups[a], init, row);
      }
    }
  }

  /** The four properties of a grouping of `data`. */
  ghost predicate GroupedByName(groups: seq<LocationStock>, data: seq<StockRow>) {
    NamesDistinct(groups) && GroupsExact(groups, data) && GroupsCover(groups, data) && GroupsFirstSeen(groups, data)
  }

  lemma AddRowKeepsGrouped(groups: seq<LocationStock>, init: seq<StockRow>, row: StockRow)
    requires GroupedByName(groups, init)
    ensures GroupedByName(AddRow(groups, row), init + [row])
  {
    AddRowKeepsDistinct(groups, row);
    AddRowKeepsExact(groups, init, row);
    AddRowKeepsCover(groups, init, row);
    AddRowKeepsFirstSeen(groups, init, row);
  }

  /** The overview has one group per location name, in order of first appearance, each carrying
      the location of its first row and the entries of exactly the rows with its name, in input
      order; every row lands in its name's group. */
  lemma {:induction false} OverviewGroupsByName(data: seq<StockRow>)
    ensures NamesDistinct(GroupByName(data))
    ensures GroupsExact(GroupByName(data), data)
    ensures GroupsCover(GroupByName(data), data)
    ensures GroupsFirstSeen(GroupByName(data), data)
  {
    OverviewGrouped(data);
  }

  lemma {:induction false} OverviewGrouped(data: seq<StockRow>)
    ensures GroupedByName(GroupByName(data), data)
  {
    if data != [] {
      var init, row := data[..|data| - 1], data[|data| - 1];
      assert data == init + [row];
      OverviewGrouped(init);
      AddRowKeepsGrouped(GroupByName(init), init, row);
    }
  }

  /** A product-location row is low on stock when a positive minimum is set and the quantity
      does not exceed it. */
  predicate IsLowStock(item: ProductLocation) {
    item.quantity <= item.minQuantity && item.minQuantity > 0
  }

  datatype LowStockEntry = LowStockEntry(
    productId: int, productName: string, supplier: string, locationId: int, locationName: string,
    currentQuantity: int, minQuantity: int, unit: string)

  function LowStockEntryOf(row: StockRow): LowStockEntry {
    LowStockEntry(row.product.id, row.product.name, row.product.supplierName, row.location.id, row.location.name,
                  row.item.quantity, row.item.minQuantity, row.product.unit)
  }

  function LowStockRows(data: seq<StockRow>): seq<StockRow> {
    Filter(data, (row: StockRow) => IsLowStock(row.item))
  }

  /** GET /locations/stock/low-stock over the joined rows `data`. */
  function GetLowStockProducts(data: seq<StockRow>): (r: seq<LowStockEntry>)
    ensures |r| == |LowStockRows(data)|
    ensures forall i :: 0 <= i < |r| ==> r[i] == LowStockEntryOf(LowStockRows(data)[i])
  {
    var rows := LowStockRows(data);
    seq(|rows|, i requires 0 <= i < |rows| => LowStockEntryOf(rows[i]))
  }

  /** The report lists a row exactly when its quantity is at most its positive minimum: every
      entry comes from such a row, each such row has its entry, and a row with no minimum set
      is never listed. */
  lemma LowStockIsExact(data: seq<StockRow>)
    ensures forall i :: 0 <= i < |LowStockRows(data)| ==>
      LowStockRows(data)[i] in data && LowStockRows(data)[i].item.quantity <= LowStockRows(data)[i].item.minQuantity
      && LowStockRows(data)[i].item.minQuantity > 0
    ensures forall j :: 0 <= j < |data| && data[j].item.quantity <= data[j].item.minQuantity && data[j].item.minQuantity > 0 ==>
      LowStockEntryOf(data[j]) in GetLowStockProducts(data)
  {
    var rows := LowStockRows(data);
    var entries := GetLowStockProducts(data);
    forall i | 0 <= i < |rows|
      ensures rows[i].item.quantity <= rows[i].item.minQuantity && rows[i].item.minQuantity > 0
    {
      assert ((row: StockRow) => IsLowStock(row.item))(rows[i]);
    }
    forall j | 0 <= j < |data| && data[j].item.quantity <= data[j].item.minQuantity && data[j].item.minQuantity > 0
      ensures LowStockEntryOf(data[j]) in entries
    {
      assert ((row: StockRow) => IsLowStock(row.item))(data[j]);
      var i :| 0 <= i < |rows| && rows[i] == data[j];
      assert entries[i] == LowStockEntryOf(data[j]);
    }
  }

  // ---------------------------------------------------------------------------
  // The tables the router works on

  class LocationRegistry {
    var locations: seq<Location>
    /** The ids of the recorded products. */
    var products: set<int>
    var productLocations: seq<ProductLocation>
    var nextProductLocationId: int

    /** Location and product-location ids are keys, new rows get fresh ids, and no product is
        recorded twice at one location. */
    ghost predicate Valid()
      reads this
    {
      && (forall i, j :: 0 <= i < j < |locations| ==> locations[i].id != locations[j].id)
      && (forall i, j :: 0 <= i < j < |productLocations| ==> productLocations[i].id != productLocations[j].id)
      && (forall i :: 0 <= i < |productLocations| ==> productLocations[i].id < nextProductLocationId)
      && PairsUnique(productLocations)
    }

    constructor (locations: seq<Location>, products: set<int>)
      requires forall i, j :: 0 <= i < j < |locations| ==> locations[i].id != locations[j].id
      ensures Valid()
      ensures this.locations == locations && this.products == products
      ensures productLocations == [] && nextProductLocationId == 1
    {
      this.locations := locations;
      this.products := products;
      productLocations := [];
      nextProductLocationId := 1;
    }

    /** PUT /locations/{locationId}. */
    method UpdateLocation(locationId: int, update: LocationUpdate) returns (r: Result<Location, LocationError>)
      requires Valid()
      modifies this
      ensures Valid()
      ensures products == old(products) && productLocations == old(productLocations)
      ensures nextProductLocationId == old(nextProductLocationId)
      ensures FindFirst(old(locations), HasId(locationId)).None? ==> r == Err(LocationNotFound) && locations == old(locations)
      ensures FindFirst(old(locations), HasId(locationId)).Some? ==>
        var k := FindFirst(old(locations), HasId(locationId)).value;
        r == Ok(LocationUpdated(old(locations)[k], update)) && locations == old(locations)[k := r.value]
    {
      var found := FindFirst(locations, HasId(locationId));
      if found.None? {
        return Err(LocationNotFound);
      }
      var k := found.value;
      var location := LocationUpdated(locations[k], update);
      locations := locations[k := location];
      r := Ok(location);
    }

    /** DELETE /locations/{locationId}: marks the location inactive and keeps its row. */
    method DeleteLocation(locationId: int) returns (r: Result<(), LocationError>)
      requires Valid()
      modifies this
      ensures Valid()
      ensures products == old(products) && productLocations == old(productLocations)
      ensures nextProductLocationId == old(nextProductLocationId)
      ensures FindFirst(old(locations), HasId(locationId)).None? ==> r == Err(LocationNotFound) && locations == old(locations)
      ensures FindFirst(old(locations), HasId(locationId)).Some? ==>
        var k := FindFirst(old(locations), HasId(locationId)).value;
        r == Ok(()) && locations == old(locations)[k := old(locations)[k].(isActive := false)]
    {
      var found := FindFirst(locations, HasId(locationId));
      if found.None? {
        return Err(LocationNotFound);
      }
      var k := found.value;
      locations := locations[k := locations[k].(isActive := false)];
      r := Ok(());
    }

    /** POST /locations/{locationId}/products: 404 for an unknown location, then for an unknown
        product, 400 when the product is already recorded there; otherwise a new row. Inactive
        locations and products pass the existence checks. */
    method AddProductToLocation(locationId: int, request: ProductLocationRequest)
      returns (r: Result<ProductLocation, LocationError>)
      requires Valid()
      modifies this
      ensures Valid()
      ensures locations == old(locations) && products == old(products)
      ensures !HasLocation(locations, locationId) ==> r == Err(LocationNotFound)
      ensures HasLocation(locations, locationId) && request.productId !in products ==> r == Err(ProductNotFound)
      ensures (HasLocation(locations, locationId) && request.productId in products
               && HasPair(old(productLocations), request.productId, locationId)) ==> r == Err(ProductAlreadyInLocation)
      ensures (HasLocation(locations, locationId) && request.productId in products
               && !HasPair(old(productLocations), request.productId, locationId)) ==> r.Ok?
      ensures r.Err? ==> productLocations == old(productLocations) && nextProductLocationId == old(nextProductLocationId)
      ensures r.Ok? ==>
        && !HasPair(old(productLocations), request.productId, locationId)
        && r.value == ProductLocation(old(nextProductLocationId), request.productId, locationId, request.quantity,
                                      request.minQuantity, request.maxQuantity, request.notes)
        && productLocations == old(productLocations) + [r.value]
        && nextProductLocationId == old(nextProductLocationId) + 1
    {
      var location := FindFirst(locations, HasId(locationId));
      if location.None? {
        return Err(LocationNotFound);
      }
      if request.productId !in products {
        return Err(ProductNotFound);
      }
      var existing := FindFirst(productLocations, Pair(request.productId, locationId));
      if existing.Some? {
        return Err(ProductAlreadyInLocation);
      }
      var row := ProductLocation(nextProductLocationId, request.productId, locationId, request.quantity,
                                 request.minQuantity, request.maxQuantity, request.notes);
      assert !HasPair(productLocations, request.productId, locationId) by {
        forall j | 0 <= j < |productLocations|
          ensures !(productLocations[j].productId == request.productId && productLocations[j].locationId == locationId)
        {
          assert !Pair(request.productId, locationId)(productLocations[j]);
        }
      }
      productLocations := productLocations + [row];
      nextProductLocationId := nextProductLocationId + 1;
      r := Ok(row);
    }

    /** PUT /locations/{locationId}/products/{id}: the row must have that id and belong to that
        location, else 404. */
    method UpdateProductLocation(locationId: int, id: int, update: ProductLocationUpdate)
      returns (r: Result<ProductLocation, LocationError>)
      requires Valid()
      modifies this
      ensures Valid()
      ensures locations == old(locations) && products == old(products)
      ensures nextProductLocationId == old(nextProductLocationId)
      ensures FindFirst(old(productLocations), AtLocation(id, locationId)).None? ==>
        r == Err(ProductLocationNotFound) && productLocations == old(productLocations)
      ensures FindFirst(old(productLocations), AtLocation(id, locationId)).Some? ==>
        var k := FindFirst(old(productLocations), AtLocation(id, locationId)).value;
        r == Ok(ProductLocationUpdated(old(productLocations)[k], update))
        && productLocations == old(productLocations)[k := r.value]
    {
      var found := FindFirst(productLocations, AtLocation(id, locationId));
      if found.None? {
        return Err(ProductLocationNotFound);
      }
      var k := found.value;
      var row := ProductLocationUpdated(productLocations[k], update);
      productLocations := productLocations[k := row];
      r := Ok(row);
    }

    /** DELETE /locations/{locationId}/products/{id}: the row must have that id and belong to
        that location, else 404; the row is deleted. */
    method RemoveProductFromLocation(locationId: int, id: int) returns (r: Result<(), LocationError>)
      requires Valid()
      modifies this
      ensures Valid()
      ensures locations == old(locations) && products == old(products)
      ensures nextProductLocationId == old(nextProductLocationId)
      ensures FindFirst(old(productLocations), AtLocation(id, locationId)).None? ==>
        r == Err(ProductLocationNotFound) && productLocations == old(productLocations)
      ensures FindFirst(old(productLocations), AtLocation(id, locationId)).Some? ==>
        var k := FindFirst(old(productLocations), AtLocation(id, locationId)).value;
        r == Ok(()) && productLocations == old(productLocations)[..k] + old(productLocations)[k + 1..]
    {
      var found := FindFirst(productLocations, AtLocation(id, locationId));
      if found.None? {
        return Err(ProductLocationNotFound);
      }
      var k := found.value;
      var rest := productLocations[..k] + productLocations[k + 1..];
      DeletedRowKeepsKeys(productLocations, k, nextProductLocationId);
      productLocations := rest;
      r := Ok(());
    }
  }
}
