/**
 * The shared records of challenge-3 (SharedModels/MaintenanceModels.cs).
 * Records the services only read or build are values; the schedule, whose
 * fields the predictive service overwrites after parsing it, is a class.
 * Money is kept in cents (`decimal` is exact, and every amount here has at
 * most two decimal places), instants in .NET ticks.
 */
module MaintenanceModels {
  import opened Wrappers

  // ----- Instants ------------------------------------------------------------

  /** A `DateTime` as its tick count: 100-nanosecond units since 0001-01-01. */
  datatype DateTime = DateTime(ticks: int)

  const TicksPerDay: int := 864_000_000_000
  /** The tick count of `DateTime.MaxValue`. */
  const MaxTicks: int := 3_155_378_975_999_999_999

  predicate ValidDateTime(t: DateTime) {
    0 <= t.ticks <= MaxTicks
  }

  /** `t.AddDays(days)` for a whole number of days: out of range is `ArgumentOutOfRangeException`. */
  function AddDays(t: DateTime, days: int): (r: Result<DateTime, Error>)
    ensures r.Success? <==> 0 <= t.ticks + days * TicksPerDay <= MaxTicks
    ensures r.Success? ==> r.value.ticks - t.ticks == days * TicksPerDay
    ensures r.Failure? ==> r.error == ArgumentOutOfRange
  {
    var ticks := t.ticks + days * TicksPerDay;
    if 0 <= ticks <= MaxTicks then Success(DateTime(ticks)) else Failure(ArgumentOutOfRange)
  }

  // ----- Identifiers -----------------------------------------------------------

  type Nibble = x: int | 0 <= x < 16

  /** A `Guid` as its 32 hexadecimal digits in display order. */
  type Guid = s: seq<Nibble> | |s| == 32 witness seq(32, (_: int) => 0 as Nibble)

  function HexDigit(n: Nibble): (c: char)
    ensures ('0' <= c <= '9') || ('a' <= c <= 'f')
  {
    if n < 10 then ('0' as int + n) as char else ('a' as int + n - 10) as char
  }

  predicate IsHexDigit(c: char) {
    ('0' <= c <= '9') || ('a' <= c <= 'f')
  }

  function Hex(ds: seq<Nibble>): (r: string)
    ensures |r| == |ds| && forall i :: 0 <= i < |ds| ==> r[i] == HexDigit(ds[i])
  {
    seq(|ds|, i requires 0 <= i < |ds| => HexDigit(ds[i]))
  }

  /** `Guid.ToString()`: the "D" format, five lower-case groups of 8, 4, 4, 4 and 12 digits. */
  function GuidString(g: Guid): string {
    Hex(g[..8]) + "-" + Hex(g[8..12]) + "-" + Hex(g[12..16]) + "-" + Hex(g[16..20]) + "-" + Hex(g[20..])
  }

  lemma GuidStringShape(g: Guid)
    ensures |GuidString(g)| == 36
    ensures GuidString(g)[..8] == Hex(g[..8])
    ensures forall i :: i in {8, 13, 18, 23} ==> GuidString(g)[i] == '-'
  {
    var s := GuidString(g);
    assert s == Hex(g[..8]) + ("-" + Hex(g[8..12]) + "-" + Hex(g[12..16]) + "-" + Hex(g[16..20]) + "-" + Hex(g[20..]));
  }

  // ----- Records ---------------------------------------------------------------

  datatype RequiredPart = RequiredPart(partNumber: string, partName: string, quantity: int, isAvailable: bool)

  datatype WorkOrder = WorkOrder(
    id: string,
    machineId: string,
    faultType: string,
    priority: string,
    assignedTechnician: string,
    requiredParts: seq<RequiredPart>,
    estimatedDurationMinutes: int,
    createdAt: DateTime,
    status: string)

  datatype MaintenanceWindow = MaintenanceWindow(
    id: string,
    startTime: DateTime,
    endTime: DateTime,
    productionImpact: string,
    isAvailable: bool)

  datatype MaintenanceHistory = MaintenanceHistory(
    id: string,
    machineId: string,
    faultType: string,
    occurrenceDate: DateTime,
    resolutionDate: DateTime,
    downtimeMinutes: int,
    costCents: int)

  datatype OrderItem = OrderItem(partNumber: string, partName: string, quantity: int, unitCostCents: int, totalCostCents: int)

  datatype PartsOrder = PartsOrder(
    id: string,
    workOrderId: string,
    orderItems: seq<OrderItem>,
    supplierId: string,
    supplierName: string,
    totalCostCents: int,
    expectedDeliveryDate: DateTime,
    orderStatus: string,
    createdAt: DateTime)

  datatype InventoryItem = InventoryItem(
    id: string,
    partNumber: string,
    partName: string,
    currentStock: int,
    minStock: int,
    reorderPoint: int,
    location: string)

  datatype Supplier = Supplier(
    id: string,
    name: string,
    parts: seq<string>,
    leadTimeDays: int,
    reliability: string,
    contactEmail: string)

  /**
   * The predictive service's output. Its `RiskScore` and
   * `PredictedFailureProbability` are floating point and not modelled.
   */
  class MaintenanceSchedule {
    var id: string
    var workOrderId: string
    var machineId: string
    var scheduledDate: DateTime
    var maintenanceWindow: MaintenanceWindow
    var recommendedAction: string
    var reasoning: string
    var createdAt: DateTime

    /** The object a JSON deserializer produces from the fields it found. */
    constructor (id: string, workOrderId: string, machineId: string, scheduledDate: DateTime,
                 maintenanceWindow: MaintenanceWindow, recommendedAction: string, reasoning: string,
                 createdAt: DateTime)
      ensures this.id == id && this.workOrderId == workOrderId && this.machineId == machineId
      ensures this.scheduledDate == scheduledDate && this.maintenanceWindow == maintenanceWindow
      ensures this.recommendedAction == recommendedAction && this.reasoning == reasoning
      ensures this.createdAt == createdAt
    {
      this.id := id;
      this.workOrderId := workOrderId;
      this.machineId := machineId;
      this.scheduledDate := scheduledDate;
      this.maintenanceWindow := maintenanceWindow;
      this.recommendedAction := recommendedAction;
      this.reasoning := reasoning;
      this.createdAt := createdAt;
    }
  }
}
