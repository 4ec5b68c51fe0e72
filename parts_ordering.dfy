/**
 * The parts-ordering service of challenge-3 (PartsOrderingAgentService.cs):
 * the placeholder supplier choice and order construction of
 * `GeneratePartsOrderAsync`, and the request text `BuildOrderingContext`
 * writes into a `StringBuilder`.
 */
module PartsOrdering {
  import opened Wrappers
  import opened Text
  import opened MaintenanceModels

  // ----- Supplier selection ----------------------------------------------------

  predicate IsHigh(s: Supplier) {
    s.reliability == "High"
  }

  /**
   * What `Where(High).OrderBy(LeadTimeDays).FirstOrDefault()` picks, by index:
   * a High supplier whose lead time no High supplier beats, and which no
   * earlier High supplier ties (OrderBy is stable).
   */
  predicate IsFastestHigh(ss: seq<Supplier>, k: int) {
    0 <= k < |ss| && IsHigh(ss[k])
    && (forall i :: 0 <= i < |ss| && IsHigh(ss[i]) ==> ss[k].leadTimeDays <= ss[i].leadTimeDays)
    && (forall i :: 0 <= i < k && IsHigh(ss[i]) ==> ss[k].leadTimeDays < ss[i].leadTimeDays)
  }

  /** The position of the supplier the query returns, or -1 when it returns null. */
  function FastestHighIndex(ss: seq<Supplier>): (k: int)
    ensures -1 <= k < |ss|
  {
    if |ss| == 0 then -1
    else
      var k := FastestHighIndex(ss[..|ss| - 1]);
      var last := ss[|ss| - 1];
      if IsHigh(last) && (k == -1 || last.leadTimeDays < ss[k].leadTimeDays) then |ss| - 1 else k
  }

  lemma {:induction false} FastestHighIndexSpec(ss: seq<Supplier>)
    ensures FastestHighIndex(ss) == -1 <==> forall i :: 0 <= i < |ss| ==> !IsHigh(ss[i])
    ensures FastestHighIndex(ss) != -1 ==> IsFastestHigh(ss, FastestHighIndex(ss))
  {
    if |ss| > 0 {
      var front := ss[..|ss| - 1];
      FastestHighIndexSpec(front);
      assert forall i :: 0 <= i < |front| ==> front[i] == ss[i];
    }
  }

  /** At most one position meets the selection rule. */
  lemma FastestHighUnique(ss: seq<Supplier>, k: int, k': int)
    requires IsFastestHigh(ss, k) && IsFastestHigh(ss, k')
    ensures k == k'
  {
  }

  /** `... .FirstOrDefault() ?? suppliers.First()`: `First` throws on an empty list. */
  function SelectSupplier(ss: seq<Supplier>): (r: Result<Supplier, Error>)
    ensures r.Failure? <==> |ss| == 0
  {
    var k := FastestHighIndex(ss);
    if k >= 0 then Success(ss[k])
    else if |ss| == 0 then Failure(InvalidOperation("Sequence contains no elements"))
    else Success(ss[0])
  }

  lemma {:induction false} SelectSupplierSpec(ss: seq<Supplier>)
    ensures |ss| == 0 ==> SelectSupplier(ss) == Failure(InvalidOperation("Sequence contains no elements"))
    ensures (exists i :: 0 <= i < |ss| && IsHigh(ss[i])) ==>
              exists k :: IsFastestHigh(ss, k) && SelectSupplier(ss) == Success(ss[k])
    ensures |ss| > 0 && (forall i :: 0 <= i < |ss| ==> !IsHigh(ss[i])) ==> SelectSupplier(ss) == Success(ss[0])
  {
    FastestHighIndexSpec(ss);
  }

  // ----- Order items -----------------------------------------------------------

  /** The placeholder unit price, 100.00, in cents. */
  const UnitCostCents: int := 10000

  function ItemFor(p: RequiredPart): OrderItem {
    OrderItem(p.partNumber, p.partName, p.quantity, UnitCostCents, UnitCostCents * p.quantity)
  }

  /** `RequiredParts.Where(!IsAvailable).Select(ItemFor)`. */
  function OrderItems(parts: seq<RequiredPart>): (r: seq<OrderItem>)
    ensures |r| <= |parts|
  {
    if |parts| == 0 then []
    else
      var last := parts[|parts| - 1];
      OrderItems(parts[..|parts| - 1]) + (if last.isAvailable then [] else [ItemFor(last)])
  }

  /** Filtering a concatenation filters each half, in order. */
  lemma {:induction false} OrderItemsAppend(a: seq<RequiredPart>, b: seq<RequiredPart>)
    ensures OrderItems(a + b) == OrderItems(a) + OrderItems(b)
    decreases |b|
  {
    if |b| == 0 {
      assert a + b == a;
    } else {
      var b' := b[..|b| - 1];
      assert (a + b)[..|a + b| - 1] == a + b';
      OrderItemsAppend(a, b');
    }
  }

  /** Exactly the missing parts are ordered, each at the placeholder price. */
  lemma {:induction false} OrderItemsMembers(parts: seq<RequiredPart>)
    ensures forall it :: it in OrderItems(parts) <==> exists p :: p in parts && !p.isAvailable && it == ItemFor(p)
    ensures forall it :: it in OrderItems(parts) ==>
              it.unitCostCents == UnitCostCents && it.totalCostCents == UnitCostCents * it.quantity
  {
    if |parts| > 0 {
      var front := parts[..|parts| - 1];
      OrderItemsMembers(front);
      assert parts == front + [parts[|parts| - 1]];
    }
  }

  function MissingCount(parts: seq<RequiredPart>): nat {
    if |parts| == 0 then 0
    else MissingCount(parts[..|parts| - 1]) + (if parts[|parts| - 1].isAvailable then 0 else 1)
  }

  /** The quantity of every part that is not available, summed. */
  function MissingQuantity(parts: seq<RequiredPart>): int {
    if |parts| == 0 then 0
    else MissingQuantity(parts[..|parts| - 1]) + (if parts[|parts| - 1].isAvailable then 0 else parts[|parts| - 1].quantity)
  }

  lemma {:induction false} OrderItemsCount(parts: seq<RequiredPart>)
    ensures |OrderItems(parts)| == MissingCount(parts)
    ensures |OrderItems(parts)| == 0 <==> forall i :: 0 <= i < |parts| ==> parts[i].isAvailable
  {
    if |parts| > 0 {
      var front := parts[..|parts| - 1];
      OrderItemsCount(front);
      assert forall i :: 0 <= i < |front| ==> front[i] == parts[i];
    }
  }

  /** `orderItems.Sum(i => i.TotalCost)`. */
  function SumTotals(items: seq<OrderItem>): int {
    if |items| == 0 then 0 else SumTotals(items[..|items| - 1]) + items[|items| - 1].totalCostCents
  }

  lemma {:induction false} SumTotalsAppend(a: seq<OrderItem>, b: seq<OrderItem>)
    ensures SumTotals(a + b) == SumTotals(a) + SumTotals(b)
    decreases |b|
  {
    if |b| == 0 {
      assert a + b == a;
    } else {
      var b' := b[..|b| - 1];
      assert (a + b)[..|a + b| - 1] == a + b';
      SumTotalsAppend(a, b');
    }
  }

  /** The order total is the placeholder price times the number of missing units. */
  lemma {:induction false} OrderTotalIsPriced(parts: seq<RequiredPart>)
    ensures SumTotals(OrderItems(parts)) == UnitCostCents * MissingQuantity(parts)
  {
    if |parts| > 0 {
      var front := parts[..|parts| - 1];
      var last := parts[|parts| - 1];
      OrderTotalIsPriced(front);
      SumTotalsAppend(OrderItems(front), if last.isAvailable then [] else [ItemFor(last)]);
      assert SumTotals([ItemFor(last)]) == UnitCostCents * last.quantity by {
        assert [ItemFor(last)][..0] == [];
      }
    }
  }

  // ----- The order -------------------------------------------------------------

  /** `$"PO-{guid.ToString().Substring(0, 8)}"`. */
  function OrderId(g: Guid): (id: string)
    ensures |id| == 11 && id[..3] == "PO-" && id[3..] == Hex(g[..8])
    ensures forall i :: 3 <= i < 11 ==> IsHexDigit(id[i])
  {
    GuidStringShape(g);
    "PO-" + GuidString(g)[..8]
  }

  /**
   * `GeneratePartsOrderAsync` after its agent lookup: the two readings of
   * `DateTime.UtcNow` are `deliveryClock` and `createdClock`.
   */
  function GeneratePartsOrder(wo: WorkOrder, suppliers: seq<Supplier>, g: Guid,
                              deliveryClock: DateTime, createdClock: DateTime): (r: Result<PartsOrder, Error>)
    ensures r.Success? ==> r.value.orderStatus == "Pending" && r.value.workOrderId == wo.id
  {
    var selected := SelectSupplier(suppliers);
    if selected.Failure? then Failure(selected.error)
    else
      var supplier := selected.value;
      var items := OrderItems(wo.requiredParts);
      var delivery := AddDays(deliveryClock, supplier.leadTimeDays);
      if delivery.Failure? then Failure(delivery.error)
      else
        Success(PartsOrder(OrderId(g), wo.id, items, supplier.id, supplier.name, SumTotals(items),
                           delivery.value, "Pending", createdClock))
  }

  /** What the order holds, and when building it throws. */
  lemma {:induction false} PartsOrderContents(wo: WorkOrder, suppliers: seq<Supplier>, g: Guid, deliveryClock: DateTime, createdClock: DateTime)
    ensures var r := GeneratePartsOrder(wo, suppliers, g, deliveryClock, createdClock);
            && (|suppliers| == 0 ==> r == Failure(InvalidOperation("Sequence contains no elements")))
            && (|suppliers| > 0 ==>
                 var s := SelectSupplier(suppliers).value;
                 && (r.Success? <==> 0 <= deliveryClock.ticks + s.leadTimeDays * TicksPerDay <= MaxTicks)
                 && (r.Failure? ==> r.error == ArgumentOutOfRange)
                 && (r.Success? ==>
                      && r.value.id[..3] == "PO-" && |r.value.id| == 11
                      && r.value.supplierId == s.id && r.value.supplierName == s.name
                      && r.value.expectedDeliveryDate.ticks == deliveryClock.ticks + s.leadTimeDays * TicksPerDay
                      && r.value.createdAt == createdClock
                      && |r.value.orderItems| == MissingCount(wo.requiredParts)
                      && r.value.totalCostCents == UnitCostCents * MissingQuantity(wo.requiredParts)))
  {
    SelectSupplierSpec(suppliers);
    OrderItemsCount(wo.requiredParts);
    OrderTotalIsPriced(wo.requiredParts);
  }

  // ----- The ordering request text ---------------------------------------------

  const Warning: string := "\U{26A0}\U{FE0F}"

  function WorkOrderLines(wo: WorkOrder): seq<string> {
    [ "# Parts Ordering Analysis Request",
      "",
      "## Work Order Information",
      "- Work Order ID: " + wo.id,
      "- Machine ID: " + wo.machineId,
      "- Fault Type: " + wo.faultType,
      "- Priority: " + wo.priority,
      "" ]
  }

  function PartLines(p: RequiredPart): seq<string> {
    [ "- **" + p.partName + "** (Part#: " + p.partNumber + ")",
      "  * Quantity needed: " + IntToString(p.quantity),
      "  * Available in stock: " + (if p.isAvailable then "YES" else "NO") ]
  }

  function StatusLine(item: InventoryItem): string {
    var needsOrder := item.currentStock <= item.reorderPoint;
    "  * Status: " + (if needsOrder then Warning + "  NEEDS ORDERING" else "\U{2713} Adequate")
  }

  function InventoryLines(item: InventoryItem): seq<string> {
    [ "- **" + item.partName + "** (Part#: " + item.partNumber + ")",
      "  * Current Stock: " + IntToString(item.currentStock),
      "  * Minimum Stock: " + IntToString(item.minStock),
      "  * Reorder Point: " + IntToString(item.reorderPoint),
      StatusLine(item),
      "  * Location: " + item.location ]
  }

  /** The first five of a supplier's parts, and "..." when there are more. */
  function PartsAvailableLine(s: Supplier): string {
    "  * Parts Available: " + Join(Take(s.parts, 5), ", ") + (if |s.parts| > 5 then "..." else "")
  }

  function SupplierLines(s: Supplier): seq<string> {
    [ "- **" + s.name + "** (ID: " + s.id + ")",
      "  * Lead Time: " + IntToString(s.leadTimeDays) + " days",
      "  * Reliability: " + s.reliability,
      "  * Contact: " + s.contactEmail,
      PartsAvailableLine(s) ]
  }

  const NoInventoryLine: string := Warning + "  No inventory records found for required parts."
  const NoSuppliersLine: string := Warning + "  No suppliers found for required parts!"

  function InventorySection(inventory: seq<InventoryItem>): seq<string> {
    if |inventory| > 0 then ConcatMap(inventory, InventoryLines) else [NoInventoryLine]
  }

  function SupplierSection(suppliers: seq<Supplier>): seq<string> {
    if |suppliers| > 0 then ConcatMap(suppliers, SupplierLines) else [NoSuppliersLine]
  }

  /** The instructions of lines 140-151: what the agent is asked to decide. */
  const AnalysisSteps: seq<string> := [
    "## Analysis Required",
    "Based on the above information, please:",
    "1. Determine which parts need to be ordered",
    "2. Select the optimal supplier considering:",
    "   - Reliability rating (prefer High > Medium > Low)",
    "   - Lead time (prefer shorter)" ]

  const CalculationSteps: seq<string> := [
    "   - Part availability",
    "3. Calculate:",
    "   - Expected delivery date",
    "   - Total order cost",
    "4. Assign order urgency (CRITICAL if priority=CRITICAL, HIGH if priority=HIGH, otherwise NORMAL)",
    "" ]

  /** The JSON answer template of lines 152-170. */
  const JsonOpening: seq<string> := [
    "Please respond in JSON format:",
    "```json",
    "{",
    "  \"supplierId\": \"<selected supplier ID>\",",
    "  \"supplierName\": \"<supplier name>\",",
    "  \"orderItems\": [" ]

  const JsonItem: seq<string> := [
    "    {",
    "      \"partNumber\": \"<part number>\",",
    "      \"partName\": \"<part name>\",",
    "      \"quantity\": <number>,",
    "      \"unitCost\": <decimal>,",
    "      \"totalCost\": <decimal>",
    "    }" ]

  const JsonClosing: seq<string> := [
    "  ],",
    "  \"totalCost\": <decimal>,",
    "  \"expectedDeliveryDate\": \"<ISO datetime>\",",
    "  \"reasoning\": \"<explanation of supplier selection and order decisions>\"",
    "}",
    "```" ]

  const AnalysisLines: seq<string> := AnalysisSteps + CalculationSteps + JsonOpening + JsonItem + JsonClosing

  /** The lines of the request: the listings, then the fixed instructions. */
  function OrderingContextLines(wo: WorkOrder, inventory: seq<InventoryItem>, suppliers: seq<Supplier>): seq<string> {
    ListingLines(wo, inventory, suppliers) + AnalysisLines
  }

  /** The work order, its parts, the inventory and the suppliers, section by section. */
  function ListingLines(wo: WorkOrder, inventory: seq<InventoryItem>, suppliers: seq<Supplier>): seq<string> {
    WorkOrderLines(wo)
    + Section("## Required Parts", ConcatMap(wo.requiredParts, PartLines))
    + Section("## Current Inventory Status", InventorySection(inventory))
    + Section("## Available Suppliers", SupplierSection(suppliers))
  }

  /** A heading, its lines, and the blank line that closes it. */
  function Section(heading: string, body: seq<string>): seq<string> {
    [heading] + body + [""]
  }

  /** `BuildOrderingContext`. */
  method BuildOrderingContext(wo: WorkOrder, inventory: seq<InventoryItem>, suppliers: seq<Supplier>)
    returns (context: string)
    ensures context == Render(OrderingContextLines(wo, inventory, suppliers))
  {
    var sb := new StringBuilder();
    AppendWorkOrder(sb, wo);
    AppendRequiredParts(sb, wo.requiredParts);
    AppendInventory(sb, inventory);
    AppendSuppliers(sb, suppliers);
    assert [] + WorkOrderLines(wo) == WorkOrderLines(wo);
    assert sb.lines == ListingLines(wo, inventory, suppliers);
    AppendAnalysisRequest(sb);
    context := sb.ToString();
  }

  method AppendWorkOrder(sb: StringBuilder, wo: WorkOrder)
    modifies sb
    ensures sb.lines == old(sb.lines) + WorkOrderLines(wo)
  {
    sb.AppendLine("# Parts Ordering Analysis Request");
    sb.AppendLine("");
    sb.AppendLine("## Work Order Information");
    sb.AppendLine("- Work Order ID: " + wo.id);
    sb.AppendLine("- Machine ID: " + wo.machineId);
    sb.AppendLine("- Fault Type: " + wo.faultType);
    sb.AppendLine("- Priority: " + wo.priority);
    sb.AppendLine("");
  }

  method AppendRequiredParts(sb: StringBuilder, parts: seq<RequiredPart>)
    modifies sb
    ensures sb.lines == old(sb.lines) + Section("## Required Parts", ConcatMap(parts, PartLines))
  {
    sb.AppendLine("## Required Parts");
    ghost var start := sb.lines;
    for i := 0 to |parts|
      invariant sb.lines == start + ConcatMap(parts[..i], PartLines)
    {
      AppendPart(sb, parts[i]);
      ConcatMapSnoc(parts, i, PartLines);
      Associative(start, ConcatMap(parts[..i], PartLines), PartLines(parts[i]));
    }
    assert parts[..|parts|] == parts;
    sb.AppendLine("");
    Associative(old(sb.lines), ["## Required Parts"], ConcatMap(parts, PartLines));
  }

  /** The body of the `foreach` over the required parts. */
  method AppendPart(sb: StringBuilder, part: RequiredPart)
    modifies sb
    ensures sb.lines == old(sb.lines) + PartLines(part)
  {
    sb.AppendLine("- **" + part.partName + "** (Part#: " + part.partNumber + ")");
    sb.AppendLine("  * Quantity needed: " + IntToString(part.quantity));
    sb.AppendLine("  * Available in stock: " + (if part.isAvailable then "YES" else "NO"));
  }

  method AppendInventory(sb: StringBuilder, inventory: seq<InventoryItem>)
    modifies sb
    ensures sb.lines == old(sb.lines) + Section("## Current Inventory Status", InventorySection(inventory))
  {
    sb.AppendLine("## Current Inventory Status");
    ghost var start := sb.lines;
    if |inventory| > 0 {
      for i := 0 to |inventory|
        invariant sb.lines == start + ConcatMap(inventory[..i], InventoryLines)
      {
        AppendInventoryItem(sb, inventory[i]);
        ConcatMapSnoc(inventory, i, InventoryLines);
        Associative(start, ConcatMap(inventory[..i], InventoryLines), InventoryLines(inventory[i]));
      }
      assert inventory[..|inventory|] == inventory;
    } else {
      sb.AppendLine(Warning + "  No inventory records found for required parts.");
    }
    sb.AppendLine("");
    Associative(old(sb.lines), ["## Current Inventory Status"], InventorySection(inventory));
  }

  /** The body of the `foreach` over the inventory. */
  method AppendInventoryItem(sb: StringBuilder, item: InventoryItem)
    modifies sb
    ensures sb.lines == old(sb.lines) + InventoryLines(item)
  {
    var needsOrder := item.currentStock <= item.reorderPoint;
    sb.AppendLine("- **" + item.partName + "** (Part#: " + item.partNumber + ")");
    sb.AppendLine("  * Current Stock: " + IntToString(item.currentStock));
    sb.AppendLine("  * Minimum Stock: " + IntToString(item.minStock));
    sb.AppendLine("  * Reorder Point: " + IntToString(item.reorderPoint));
    sb.AppendLine("  * Status: " + (if needsOrder then Warning + "  NEEDS ORDERING" else "\U{2713} Adequate"));
    sb.AppendLine("  * Location: " + item.location);
  }

  method AppendSuppliers(sb: StringBuilder, suppliers: seq<Supplier>)
    modifies sb
    ensures sb.lines == old(sb.lines) + Section("## Available Suppliers", SupplierSection(suppliers))
  {
    sb.AppendLine("## Available Suppliers");
    ghost var start := sb.lines;
    if |suppliers| > 0 {
      for i := 0 to |suppliers|
        invariant sb.lines == start + ConcatMap(suppliers[..i], SupplierLines)
      {
        AppendSupplier(sb, suppliers[i]);
        ConcatMapSnoc(suppliers, i, SupplierLines);
        Associative(start, ConcatMap(suppliers[..i], SupplierLines), SupplierLines(suppliers[i]));
      }
      assert suppliers[..|suppliers|] == suppliers;
    } else {
      sb.AppendLine(Warning + "  No suppliers found for required parts!");
    }
    sb.AppendLine("");
    Associative(old(sb.lines), ["## Available Suppliers"], SupplierSection(suppliers));
  }

  /** The body of the `foreach` over the suppliers. */
  method AppendSupplier(sb: StringBuilder, supplier: Supplier)
    modifies sb
    ensures sb.lines == old(sb.lines) + SupplierLines(supplier)
  {
    sb.AppendLine("- **" + supplier.name + "** (ID: " + supplier.id + ")");
    sb.AppendLine("  * Lead Time: " + IntToString(supplier.leadTimeDays) + " days");
    sb.AppendLine("  * Reliability: " + supplier.reliability);
    sb.AppendLine("  * Contact: " + supplier.contactEmail);
    sb.AppendLine("  * Parts Available: " + Join(Take(supplier.parts, 5), ", ")
                  + (if |supplier.parts| > 5 then "..." else ""));
  }

  method AppendAnalysisRequest(sb: StringBuilder)
    modifies sb
    ensures sb.lines == old(sb.lines) + AnalysisLines
  {
    ghost var l0 := sb.lines;
    AppendAnalysisSteps(sb);
    AppendCalculationSteps(sb);
    AppendJsonOpening(sb);
    AppendJsonItem(sb);
    AppendJsonClosing(sb);
    JoinSections(l0, AnalysisSteps, CalculationSteps, JsonOpening, JsonItem, JsonClosing);
  }

  method AppendAnalysisSteps(sb: StringBuilder)
    modifies sb
    ensures sb.lines == old(sb.lines) + AnalysisSteps
  {
    sb.AppendLine("## Analysis Required");
    sb.AppendLine("Based on the above information, please:");
    sb.AppendLine("1. Determine which parts need to be ordered");
    sb.AppendLine("2. Select the optimal supplier considering:");
    sb.AppendLine("   - Reliability rating (prefer High > Medium > Low)");
    sb.AppendLine("   - Lead time (prefer shorter)");
  }

  method AppendCalculationSteps(sb: StringBuilder)
    modifies sb
    ensures sb.lines == old(sb.lines) + CalculationSteps
  {
    sb.AppendLine("   - Part availability");
    sb.AppendLine("3. Calculate:");
    sb.AppendLine("   - Expected delivery date");
    sb.AppendLine("   - Total order cost");
    sb.AppendLine("4. Assign order urgency (CRITICAL if priority=CRITICAL, HIGH if priority=HIGH, otherwise NORMAL)");
    sb.AppendLine("");
  }

  method AppendJsonOpening(sb: StringBuilder)
    modifies sb
    ensures sb.lines == old(sb.lines) + JsonOpening
  {
    sb.AppendLine("Please respond in JSON format:");
    sb.AppendLine("```json");
    sb.AppendLine("{");
    sb.AppendLine("  \"supplierId\": \"<selected supplier ID>\",");
    sb.AppendLine("  \"supplierName\": \"<supplier name>\",");
    sb.AppendLine("  \"orderItems\": [");
  }

  method AppendJsonItem(sb: StringBuilder)
    modifies sb
    ensures sb.lines == old(sb.lines) + JsonItem
  {
    sb.AppendLine("    {");
    sb.AppendLine("      \"partNumber\": \"<part number>\",");
    sb.AppendLine("      \"partName\": \"<part name>\",");
    sb.AppendLine("      \"quantity\": <number>,");
    sb.AppendLine("      \"unitCost\": <decimal>,");
    sb.AppendLine("      \"totalCost\": <decimal>");
    sb.AppendLine("    }");
  }

  method AppendJsonClosing(sb: StringBuilder)
    modifies sb
    ensures sb.lines == old(sb.lines) + JsonClosing
  {
    sb.AppendLine("  ],");
    sb.AppendLine("  \"totalCost\": <decimal>,");
    sb.AppendLine("  \"expectedDeliveryDate\": \"<ISO datetime>\",");
    sb.AppendLine("  \"reasoning\": \"<explanation of supplier selection and order decisions>\"");
    sb.AppendLine("}");
    sb.AppendLine("```");
  }

  lemma JoinSections(l0: seq<string>, a: seq<string>, b: seq<string>, c: seq<string>, d: seq<string>, e: seq<string>)
    ensures l0 + a + b + c + d + e == l0 + (a + b + c + d + e)
  {
  }

  // ----- What the request says ---------------------------------------------------

  /** An item is flagged for ordering exactly when its stock is at or below its reorder point. */
  lemma {:induction false} NeedsOrderingFlag(item: InventoryItem)
    ensures Contains(StatusLine(item), "NEEDS ORDERING") <==> item.currentStock <= item.reorderPoint
  {
    var line := StatusLine(item);
    if item.currentStock <= item.reorderPoint {
      ContainsMiddle("  * Status: " + Warning + "  ", "NEEDS ORDERING", "");
      assert line == "  * Status: " + Warning + "  " + "NEEDS ORDERING" + "";
    } else {
      NoFirstChar(line, "NEEDS ORDERING");
    }
  }

  /** Where the inventory listing starts in the request. */
  function InventoryOffset(wo: WorkOrder): nat {
    |WorkOrderLines(wo)| + 1 + 3 * |wo.requiredParts| + 1 + 1
  }

  /** The inventory listing sits unchanged inside the request. */
  lemma {:induction false} InventoryLineAt(wo: WorkOrder, inventory: seq<InventoryItem>, suppliers: seq<Supplier>, j: nat)
    requires j < |InventorySection(inventory)|
    ensures InventoryOffset(wo) + j < |ListingLines(wo, inventory, suppliers)|
    ensures ListingLines(wo, inventory, suppliers)[InventoryOffset(wo) + j] == InventorySection(inventory)[j]
  {
    var before := WorkOrderLines(wo) + Section("## Required Parts", ConcatMap(wo.requiredParts, PartLines));
    var body := InventorySection(inventory);
    var after := Section("## Available Suppliers", SupplierSection(suppliers));
    BeforeInventoryLength(wo);
    InSection(ListingLines(wo, inventory, suppliers), before, "## Current Inventory Status", body, after,
              InventoryOffset(wo) + j, j);
  }

  /** The inventory heading follows the work order and the required parts. */
  lemma BeforeInventoryLength(wo: WorkOrder)
    ensures |WorkOrderLines(wo) + Section("## Required Parts", ConcatMap(wo.requiredParts, PartLines))| + 1
            == InventoryOffset(wo)
  {
    ConcatMapLength(wo.requiredParts, PartLines, 3);
  }

  /** An element of a headed section, found from the section's place in the whole. */
  lemma InSection(lines: seq<string>, before: seq<string>, heading: string, body: seq<string>, after: seq<string>,
                  at: nat, j: nat)
    requires lines == before + Section(heading, body) + after
    requires j < |body| && at == |before| + 1 + j
    ensures at < |lines| && lines[at] == body[j]
  {
    var section := Section(heading, body);
    assert section[1 + j] == body[j];
    assert (before + section)[|before| + 1 + j] == section[1 + j];
  }

  /**
   * Inventory item `k`'s status line sits at a fixed place in the request, so
   * by NeedsOrderingFlag the request flags exactly the items at or below their
   * reorder point.
   */
  lemma {:induction false} ContextStatusLine(wo: WorkOrder, inventory: seq<InventoryItem>, suppliers: seq<Supplier>, k: nat)
    requires k < |inventory|
    ensures var lines := ListingLines(wo, inventory, suppliers);
            var at := InventoryOffset(wo) + 6 * k + 4;
            at < |lines| && lines[at] == StatusLine(inventory[k])
  {
    var j := 6 * k + 4;
    InventorySectionAt(inventory, k);
    InventoryLineAt(wo, inventory, suppliers, j);
    var lines := ListingLines(wo, inventory, suppliers);
    assert InventoryOffset(wo) + j < |lines| && lines[InventoryOffset(wo) + j] == StatusLine(inventory[k]);
  }

  /** The request marks inventory item `k` as needing an order iff its stock is at or below its reorder point. */
  lemma {:induction false} ContextFlagsItem(wo: WorkOrder, inventory: seq<InventoryItem>, suppliers: seq<Supplier>, k: nat)
    requires k < |inventory|
    ensures var lines := OrderingContextLines(wo, inventory, suppliers);
            var at := InventoryOffset(wo) + 6 * k + 4;
            at < |lines| && (Contains(lines[at], "NEEDS ORDERING") <==> inventory[k].currentStock <= inventory[k].reorderPoint)
  {
    ContextStatusLine(wo, inventory, suppliers, k);
    var at := InventoryOffset(wo) + 6 * k + 4;
    assert OrderingContextLines(wo, inventory, suppliers)[at] == ListingLines(wo, inventory, suppliers)[at];
    NeedsOrderingFlag(inventory[k]);
  }

  lemma {:induction false} InventorySectionAt(inventory: seq<InventoryItem>, k: nat)
    requires k < |inventory|
    ensures 6 * k + 4 < |InventorySection(inventory)|
    ensures InventorySection(inventory)[6 * k + 4] == StatusLine(inventory[k])
  {
    ConcatMapAt(inventory, InventoryLines, 6, k, 4);
  }

  /**
   * A supplier's parts line shows its first five parts, each of them in full,
   * and ends in "..." exactly when some part was cut off.
   */
  lemma {:induction false} PartsAvailableListing(s: Supplier)
    ensures var line := PartsAvailableLine(s);
            var shown := Take(s.parts, 5);
            && |shown| == (if |s.parts| <= 5 then |s.parts| else 5) && shown == s.parts[..|shown|]
            && (forall i :: 0 <= i < |shown| ==> Contains(line, s.parts[i]))
            && (|s.parts| > 5 ==> EndsWith(line, "..."))
            && (|s.parts| <= 5 ==> line == "  * Parts Available: " + Join(s.parts, ", "))
  {
    var line := PartsAvailableLine(s);
    var shown := Take(s.parts, 5);
    var joined := Join(shown, ", ");
    var tail := if |s.parts| > 5 then "..." else "";
    forall i | 0 <= i < |shown| ensures Contains(line, s.parts[i]) {
      JoinContains(shown, ", ", i);
      var j: nat :| j <= |joined| && OccursAt(joined, shown[i], j);
      var at := |"  * Parts Available: "| + j;
      assert line[at..at + |shown[i]|] == joined[j..j + |shown[i]|];
      assert OccursAt(line, s.parts[i], at);
    }
  }

  /** The supplier section lists every supplier's parts line, in order. */
  lemma {:induction false} SupplierSectionLine(suppliers: seq<Supplier>, k: nat)
    requires k < |suppliers|
    ensures 5 * k + 4 < |SupplierSection(suppliers)|
    ensures SupplierSection(suppliers)[5 * k + 4] == PartsAvailableLine(suppliers[k])
  {
    ConcatMapAt(suppliers, SupplierLines, 5, k, 4);
  }
}
