/**
 * The entities of the dashboard (src/types/index.ts). Timestamps are integer milliseconds
 * since the epoch. `Session.totalPausedMs` is the mock session's `totalPausedTime` (seconds,
 * with a fractional part) times 1000: every amount added to it is a whole number of
 * milliseconds divided by 1000, so milliseconds hold it exactly.
 */
module Types {
  import opened Wrappers
  import opened Seqs

  datatype DeviceType = Pc | PlayStation | Billiard | Other

  datatype DeviceStatus = Available | Occupied | Maintenance

  datatype Session = Session(
    id: string,
    deviceId: string,
    userId: Option<string>,
    startTime: int,
    endTime: Option<int>,
    pausedAt: Option<int>,
    totalPausedMs: int,
    isPaused: bool)

  datatype Device = Device(
    id: string,
    name: string,
    deviceType: DeviceType,
    status: DeviceStatus,
    hourlyRate: int,
    currentSession: Option<Session>)

  datatype Product = Product(id: string, name: string, price: int, stock: int, category: string)

  /** `products.find(p => p.id === id)`: the first product with the id. */
  function FindProduct(products: seq<Product>, id: string): (r: Option<Product>)
    ensures r.Some? ==> r.value in products && r.value.id == id
    ensures r.None? <==> forall i :: 0 <= i < |products| ==> products[i].id != id
  {
    if products == [] then None
    else if products[0].id == id then Some(products[0])
    else FindProduct(products[1..], id)
  }

  /** The product found is the first one with the id: any product with the id listed earlier would have been found. */
  lemma {:induction false} FindProductIsFirst(products: seq<Product>, id: string, i: int)
    requires 0 <= i < |products| && products[i].id == id
    requires forall j :: 0 <= j < i ==> products[j].id != id
    ensures FindProduct(products, id) == Some(products[i])
  {
    if i > 0 {
      var rest := products[1..];
      forall j | 0 <= j < i - 1 ensures rest[j].id != id {
        assert rest[j] == products[j + 1];
      }
      FindProductIsFirst(rest, id, i - 1);
    }
  }

  /** An entry of the buffet cart and of a sale: `{ productId, quantity }`. */
  datatype CartItem = CartItem(productId: string, quantity: int)

  /** The counts `getStats` returns. */
  datatype Stats = Stats(available: nat, occupied: nat, maintenance: nat, total: nat)

  predicate IsAvailable(st: DeviceStatus) { st == Available }

  predicate IsOccupied(st: DeviceStatus) { st == Occupied }

  predicate InMaintenance(st: DeviceStatus) { st == Maintenance }

  /** `getStats` over the statuses of a device list. */
  function StatsOf(statuses: seq<DeviceStatus>): Stats
  {
    Stats(Count(statuses, IsAvailable), Count(statuses, IsOccupied), Count(statuses, InMaintenance), |statuses|)
  }

  /** Every device has exactly one of the three statuses, so the three counts add up to the total. */
  lemma {:induction false} StatsAddUp(statuses: seq<DeviceStatus>)
    ensures var r := StatsOf(statuses); r.available + r.occupied + r.maintenance == r.total
  {
    if statuses != [] {
      var s', last := statuses[..|statuses| - 1], statuses[|statuses| - 1];
      StatsAddUp(s');
      assert statuses == s' + [last];
      FilterSnoc(s', last, IsAvailable);
      FilterSnoc(s', last, IsOccupied);
      FilterSnoc(s', last, InMaintenance);
    }
  }
}
