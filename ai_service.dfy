/**
 * backEnd/services/ai_service.py: inventory-health classification and the prioritised alert list.
 * The consumption estimates depend on the clock and on floating-point arithmetic; the analysis
 * receives the days-remaining estimate as a function of the material and the consumption-based
 * reorder quantity as an integer.
 */
module AiService {
  import opened Wrappers
  import opened Arith
  import opened Seqs
  import opened Database

  /** Critical when at most a week of stock remains. */
  const CriticalDays := 7
  /** Low when at most two weeks remain (and not critical). */
  const LowDays := 14
  /** Reorder point: three weeks. */
  const ReorderDays := 21

  /** An entry of the critical or the low-stock list. */
  datatype StockAlert = StockAlert(material: Material, daysRemaining: int)

  datatype ReorderRecommendation = ReorderRecommendation(material: Material, currentStock: int, recommendedQuantity: int, daysRemaining: int)

  /** A value, or the `TypeError` Python raises when `max` compares a number with `None`. */
  datatype Raises<T> = Ok(value: T) | TypeError

  /** The result of `analyze_inventory_health` (without its timestamp). */
  datatype HealthReport = HealthReport(
    critical: seq<StockAlert>, low: seq<StockAlert>, reorders: seq<ReorderRecommendation>, totalMaterials: nat)

  /**
   * `_calculate_days_remaining` for a recent consumption total: the quantity divided by the
   * daily rate `total / 30` (1 when nothing was consumed), truncated towards zero by `int()`.
   */
  function DaysRemaining(quantity: int, totalConsumption: nat): (d: int)
    ensures totalConsumption == 0 ==> d == quantity
    ensures totalConsumption > 0 && quantity >= 0 ==> 0 <= d * totalConsumption <= 30 * quantity < (d + 1) * totalConsumption
    ensures totalConsumption > 0 && quantity < 0 ==> (d - 1) * totalConsumption < 30 * quantity <= d * totalConsumption <= 0
  {
    if totalConsumption == 0 then quantity
    else if quantity >= 0 then (30 * quantity) / totalConsumption
    else -((-30 * quantity) / totalConsumption)
  }

  /** With no recent consumption the daily rate defaults to 1, so the stock lasts `quantity` days. */
  lemma DaysRemainingWithoutConsumption(quantity: int)
    ensures DaysRemaining(quantity, 0) == quantity
  {
  }

  /** 2 units per item of every recent order. */
  function OrderConsumption(recentOrderItemCounts: seq<nat>): (t: nat)
    ensures t == 0 <==> forall i :: 0 <= i < |recentOrderItemCounts| ==> recentOrderItemCounts[i] == 0
  {
    if recentOrderItemCounts == [] then 0
    else OrderConsumption(recentOrderItemCounts[..|recentOrderItemCounts| - 1]) + 2 * recentOrderItemCounts[|recentOrderItemCounts| - 1]
  }

  /**
   * The recent consumption behind the days-remaining estimate: 2 units per item of every recent
   * order plus 2 units per recent queue entry. It does not depend on the material.
   */
  function ConsumptionTotal(recentOrderItemCounts: seq<nat>, recentQueueEntries: nat): (t: nat)
    ensures t % 2 == 0
    ensures t == 0 <==> recentQueueEntries == 0 && forall i :: 0 <= i < |recentOrderItemCounts| ==> recentOrderItemCounts[i] == 0
  {
    OrderConsumptionEven(recentOrderItemCounts);
    OrderConsumption(recentOrderItemCounts) + 2 * recentQueueEntries
  }

  lemma {:induction false} OrderConsumptionEven(recentOrderItemCounts: seq<nat>)
    ensures OrderConsumption(recentOrderItemCounts) % 2 == 0
  {
    if recentOrderItemCounts != [] {
      OrderConsumptionEven(recentOrderItemCounts[..|recentOrderItemCounts| - 1]);
    }
  }

  /** The two accumulation loops of `_calculate_days_remaining` (recent orders, then recent queue entries). */
  method RecentConsumption(recentOrderItemCounts: seq<nat>, recentQueueEntries: nat) returns (total: nat)
    ensures total == ConsumptionTotal(recentOrderItemCounts, recentQueueEntries)
  {
    total := 0;
    var i := 0;
    while i < |recentOrderItemCounts|
      invariant 0 <= i <= |recentOrderItemCounts|
      invariant total == OrderConsumption(recentOrderItemCounts[..i])
    {
      assert recentOrderItemCounts[..i + 1][..i] == recentOrderItemCounts[..i];
      total := total + recentOrderItemCounts[i] * 2;
      i := i + 1;
    }
    assert recentOrderItemCounts[..i] == recentOrderItemCounts;
    var j := 0;
    while j < recentQueueEntries
      invariant 0 <= j <= recentQueueEntries
      invariant total == OrderConsumption(recentOrderItemCounts) + 2 * j
    {
      total := total + 2;
      j := j + 1;
    }
  }

  /** More stock never means fewer days remaining under the same consumption. */
  lemma DaysRemainingMonotone(q1: int, q2: int, totalConsumption: nat)
    requires q1 <= q2
    ensures DaysRemaining(q1, totalConsumption) <= DaysRemaining(q2, totalConsumption)
  {
    if totalConsumption > 0 {
      if q1 >= 0 {
        DivMonotone(30 * q1, 30 * q2, totalConsumption);
      } else if q2 < 0 {
        DivMonotone(-30 * q2, -30 * q1, totalConsumption);
      }
    }
  }

  /**
   * `_calculate_reorder_quantity`: the consumption-based quantity, but never below the material's
   * `required`; a NULL `required` makes `max` raise.
   */
  function ReorderQuantity(m: Material, supply: int): (q: Raises<int>)
    ensures q.TypeError? <==> m.required.None?
    ensures q.Ok? ==> q.value >= m.required.value && q.value >= supply
    ensures q.Ok? ==> q.value == m.required.value || q.value == supply
  {
    if m.required.None? then TypeError else Ok(Max(supply, m.required.value))
  }

  /** Some material at or below the reorder point has a NULL `required`, so its reorder quantity raises. */
  ghost predicate RequiredMissing(materials: seq<Material>, days: Material -> int) {
    exists m :: m in materials && days(m) <= ReorderDays && m.required.None?
  }

  /** The loop of `analyze_inventory_health` over `materials`; an exception in any iteration ends the analysis. */
  function Health(materials: seq<Material>, days: Material -> int, supply: int): (h: Raises<HealthReport>)
    ensures h.Ok? ==> h.value.totalMaterials == |materials|
    ensures h.Ok? ==> |h.value.critical| + |h.value.low| <= |materials| && |h.value.reorders| <= |materials|
  {
    if materials == [] then Ok(HealthReport([], [], [], 0))
    else
      var prefix := Health(materials[..|materials| - 1], days, supply);
      var m := materials[|materials| - 1];
      var d := days(m);
      var recommended := ReorderQuantity(m, supply);
      if prefix.TypeError? || (d <= ReorderDays && recommended.TypeError?) then TypeError
      else
        var r := prefix.value;
        var critical := if d <= CriticalDays then r.critical + [StockAlert(m, d)] else r.critical;
        var low := if CriticalDays < d <= LowDays then r.low + [StockAlert(m, d)] else r.low;
        var reorders := if d <= ReorderDays then r.reorders + [ReorderRecommendation(m, m.quantity, recommended.value, d)] else r.reorders;
        Ok(HealthReport(critical, low, reorders, |materials|))
  }

  /**
   * The analysis raises exactly when a material at or below the reorder point has a NULL
   * `required`. Otherwise the thresholds apply: a material is listed as critical iff at most 7 days
   * remain, as low iff 8 to 14 days remain (so never both), and gets a reorder recommendation iff
   * at most 21 days remain, for at least `required` units. Every entry records the material's own estimate.
   */
  lemma {:induction false} HealthClassification(materials: seq<Material>, days: Material -> int, supply: int)
    ensures Health(materials, days, supply).TypeError? <==> RequiredMissing(materials, days)
    ensures Health(materials, days, supply).Ok? ==>
              forall a :: a in Health(materials, days, supply).value.critical ==>
                a.material in materials && a.daysRemaining == days(a.material) && a.daysRemaining <= CriticalDays
    ensures Health(materials, days, supply).Ok? ==>
              forall a :: a in Health(materials, days, supply).value.low ==>
                a.material in materials && a.daysRemaining == days(a.material) && CriticalDays < a.daysRemaining <= LowDays
    ensures Health(materials, days, supply).Ok? ==>
              forall r :: r in Health(materials, days, supply).value.reorders ==>
                && r.material in materials && r.daysRemaining == days(r.material) && r.daysRemaining <= ReorderDays
                && r.currentStock == r.material.quantity
                && r.material.required.Some? && r.recommendedQuantity >= r.material.required.value
    ensures Health(materials, days, supply).Ok? ==>
              forall m :: m in materials && days(m) <= CriticalDays ==> StockAlert(m, days(m)) in Health(materials, days, supply).value.critical
    ensures Health(materials, days, supply).Ok? ==>
              forall m :: m in materials && CriticalDays < days(m) <= LowDays ==> StockAlert(m, days(m)) in Health(materials, days, supply).value.low
    ensures Health(materials, days, supply).Ok? ==>
              forall m :: m in materials && days(m) <= ReorderDays ==>
                && ReorderQuantity(m, supply).Ok?
                && ReorderRecommendation(m, m.quantity, ReorderQuantity(m, supply).value, days(m)) in Health(materials, days, supply).value.reorders
  {
    if materials != [] {
      var p := materials[..|materials| - 1];
      HealthClassification(p, days, supply);
      assert forall m :: m in materials ==> m in p || m == materials[|materials| - 1];
      assert forall m :: m in p ==> m in materials;
    }
  }

  /**
   * The critical list holds one entry per material with at most 7 days left, in material order:
   * entry k is for the material at position `idx[k]`, and the positions increase.
   */
  lemma {:induction false} CriticalInOrder(materials: seq<Material>, days: Material -> int, supply: int) returns (idx: seq<int>)
    ensures Health(materials, days, supply).Ok? ==> |idx| == |Health(materials, days, supply).value.critical| && IncreasingIndices(idx, |materials|)
    ensures Health(materials, days, supply).Ok? ==>
              forall k :: 0 <= k < |idx| ==>
                (days(materials[idx[k]]) <= CriticalDays
                && Health(materials, days, supply).value.critical[k] == StockAlert(materials[idx[k]], days(materials[idx[k]])))
    ensures Health(materials, days, supply).Ok? ==> forall j :: 0 <= j < |materials| && days(materials[j]) <= CriticalDays ==> j in idx
  {
    if materials == [] {
      idx := [];
    } else {
      var p := materials[..|materials| - 1];
      var pi := CriticalInOrder(p, days, supply);
      var last := |materials| - 1;
      idx := if days(materials[last]) <= CriticalDays then pi + [last] else pi;
      assert forall k :: 0 <= k < |pi| && 0 <= pi[k] < |p| ==> materials[pi[k]] == p[pi[k]];
    }
  }

  /**
   * The low-stock list holds one entry per material with 8 to 14 days left, in material order.
   */
  lemma {:induction false} LowInOrder(materials: seq<Material>, days: Material -> int, supply: int) returns (idx: seq<int>)
    ensures Health(materials, days, supply).Ok? ==> |idx| == |Health(materials, days, supply).value.low| && IncreasingIndices(idx, |materials|)
    ensures Health(materials, days, supply).Ok? ==>
              forall k :: 0 <= k < |idx| ==>
                (CriticalDays < days(materials[idx[k]]) <= LowDays
                && Health(materials, days, supply).value.low[k] == StockAlert(materials[idx[k]], days(materials[idx[k]])))
    ensures Health(materials, days, supply).Ok? ==> forall j :: 0 <= j < |materials| && CriticalDays < days(materials[j]) <= LowDays ==> j in idx
  {
    if materials == [] {
      idx := [];
    } else {
      var p := materials[..|materials| - 1];
      var pi := LowInOrder(p, days, supply);
      var last := |materials| - 1;
      idx := if CriticalDays < days(materials[last]) <= LowDays then pi + [last] else pi;
      assert forall k :: 0 <= k < |pi| && 0 <= pi[k] < |p| ==> materials[pi[k]] == p[pi[k]];
    }
  }

  /**
   * The reorder list holds one recommendation per material with at most 21 days left, in material order.
   */
  lemma {:induction false} ReordersInOrder(materials: seq<Material>, days: Material -> int, supply: int) returns (idx: seq<int>)
    ensures Health(materials, days, supply).Ok? ==> |idx| == |Health(materials, days, supply).value.reorders| && IncreasingIndices(idx, |materials|)
    ensures Health(materials, days, supply).Ok? ==>
              forall k :: 0 <= k < |idx| ==>
                (days(materials[idx[k]]) <= ReorderDays && ReorderQuantity(materials[idx[k]], supply).Ok?
                && Health(materials, days, supply).value.reorders[k] == ReorderRecommendation(materials[idx[k]], materials[idx[k]].quantity, ReorderQuantity(materials[idx[k]], supply).value, days(materials[idx[k]])))
    ensures Health(materials, days, supply).Ok? ==> forall j :: 0 <= j < |materials| && days(materials[j]) <= ReorderDays ==> j in idx
  {
    if materials == [] {
      idx := [];
    } else {
      var p := materials[..|materials| - 1];
      var pi := ReordersInOrder(p, days, supply);
      var last := |materials| - 1;
      idx := if days(materials[last]) <= ReorderDays then pi + [last] else pi;
      assert forall k :: 0 <= k < |pi| && 0 <= pi[k] < |p| ==> materials[pi[k]] == p[pi[k]];
    }
  }

  /** The per-material estimate the service actually uses: one consumption total shared by all materials. */
  function EstimatedDays(totalConsumption: nat): (days: Material -> int)
    ensures forall m: Material, n: Material :: m.quantity <= n.quantity ==> days(m) <= days(n)
  {
    forall m: Material, n: Material | m.quantity <= n.quantity
      ensures DaysRemaining(m.quantity, totalConsumption) <= DaysRemaining(n.quantity, totalConsumption)
    {
      DaysRemainingMonotone(m.quantity, n.quantity, totalConsumption);
    }
    (m: Material) => DaysRemaining(m.quantity, totalConsumption)
  }

  /**
   * With the service's estimate, urgency follows stock: when the analysis succeeds, a listed
   * material with no more stock than a critical one is critical too, and one with no more stock
   * than a reorder candidate is a reorder candidate.
   */
  lemma UrgencyFollowsStock(materials: seq<Material>, totalConsumption: nat, supply: int, a: StockAlert, m: Material)
    requires m in materials
    ensures var h := Health(materials, EstimatedDays(totalConsumption), supply);
            h.Ok? && a in h.value.critical && m.quantity <= a.material.quantity ==>
              StockAlert(m, DaysRemaining(m.quantity, totalConsumption)) in h.value.critical
    ensures var h := Health(materials, EstimatedDays(totalConsumption), supply);
            h.Ok? ==> forall r :: r in h.value.reorders && m.quantity <= r.material.quantity ==>
              && ReorderQuantity(m, supply).Ok?
              && ReorderRecommendation(m, m.quantity, ReorderQuantity(m, supply).value, DaysRemaining(m.quantity, totalConsumption))
                   in h.value.reorders
  {
    var days := EstimatedDays(totalConsumption);
    HealthClassification(materials, days, supply);
    var h := Health(materials, days, supply);
    if h.Ok? {
      if m.quantity <= a.material.quantity {
        DaysRemainingMonotone(m.quantity, a.material.quantity, totalConsumption);
      }
      forall r | r in h.value.reorders && m.quantity <= r.material.quantity
        ensures ReorderQuantity(m, supply).Ok?
        ensures ReorderRecommendation(m, m.quantity, ReorderQuantity(m, supply).value, days(m)) in h.value.reorders
      {
        DaysRemainingMonotone(m.quantity, r.material.quantity, totalConsumption);
      }
    }
  }

  /** No material is both critical and low. */
  lemma CriticalAndLowDisjoint(materials: seq<Material>, days: Material -> int, supply: int)
    ensures Health(materials, days, supply).Ok? ==>
              forall a :: a in Health(materials, days, supply).value.critical ==> a !in Health(materials, days, supply).value.low
  {
    HealthClassification(materials, days, supply);
  }

  /**
   * `analyze_inventory_health`: one pass over the materials appending to the three lists; the
   * reorder quantity of a material with a NULL `required` raises and ends the pass.
   */
  method AnalyzeInventoryHealth(materials: seq<Material>, days: Material -> int, supply: int) returns (report: Raises<HealthReport>)
    ensures report == Health(materials, days, supply)
  {
    var critical, low, reorders := [], [], [];
    var i := 0;
    while i < |materials|
      invariant 0 <= i <= |materials|
      invariant Health(materials[..i], days, supply) == Ok(HealthReport(critical, low, reorders, i))
    {
      var material := materials[i];
      assert materials[..i + 1][..i] == materials[..i];
      var daysRemaining := days(material);
      if daysRemaining <= 7 {
        critical := critical + [StockAlert(material, daysRemaining)];
      } else if daysRemaining <= 14 {
        low := low + [StockAlert(material, daysRemaining)];
      }
      if daysRemaining <= 21 {
        var recommended := ReorderQuantity(material, supply);
        if recommended.TypeError? {
          HealthClassification(materials[..i + 1], days, supply);
          HealthClassification(materials, days, supply);
          assert material in materials;
          return TypeError;
        }
        reorders := reorders + [ReorderRecommendation(material, material.quantity, recommended.value, daysRemaining)];
      }
      i := i + 1;
    }
    assert materials[..i] == materials;
    report := Ok(HealthReport(critical, low, reorders, |materials|));
  }

  // ---------------------------------------------------------------- smart alerts

  datatype AlertType = CriticalAlert | LowStockAlert | ReorderAlert

  /**
   * A dashboard alert. Titles, messages and timestamps are formatted text and are not modelled;
   * the alert id is `<type>_<material id>`.
   */
  datatype Alert = Alert(
    kind: AlertType, materialId: int, materialName: string, currentQuantity: int,
    daysRemaining: Option<int>, recommendedQuantity: Option<int>, priority: int)

  function FromCritical(a: StockAlert): Alert {
    Alert(CriticalAlert, a.material.id, a.material.name, a.material.quantity, Some(a.daysRemaining), None, 1)
  }

  function FromLow(a: StockAlert): Alert {
    Alert(LowStockAlert, a.material.id, a.material.name, a.material.quantity, Some(a.daysRemaining), None, 2)
  }

  function FromReorder(r: ReorderRecommendation): Alert {
    Alert(ReorderAlert, r.material.id, r.material.name, r.currentStock, None, Some(r.recommendedQuantity), 3)
  }

  /** The first loop of `get_smart_alerts`: one alert per critical entry. */
  function CriticalAlerts(s: seq<StockAlert>): seq<Alert> {
    if s == [] then [] else CriticalAlerts(s[..|s| - 1]) + [FromCritical(s[|s| - 1])]
  }

  /** The second loop: one alert per low-stock entry. */
  function LowAlerts(s: seq<StockAlert>): seq<Alert> {
    if s == [] then [] else LowAlerts(s[..|s| - 1]) + [FromLow(s[|s| - 1])]
  }

  /** The third loop: one alert per reorder recommendation. */
  function ReorderAlerts(s: seq<ReorderRecommendation>): seq<Alert> {
    if s == [] then [] else ReorderAlerts(s[..|s| - 1]) + [FromReorder(s[|s| - 1])]
  }

  /** Each alert mirrors its entry: one alert per entry, in entry order, with that entry's material, quantity and estimate or recommendation. */
  lemma {:induction false} AlertsMirrorEntries(c: seq<StockAlert>, l: seq<StockAlert>, r: seq<ReorderRecommendation>)
    ensures |CriticalAlerts(c)| == |c| && |LowAlerts(l)| == |l| && |ReorderAlerts(r)| == |r|
    ensures forall i :: 0 <= i < |c| ==> CriticalAlerts(c)[i] == FromCritical(c[i])
    ensures forall i :: 0 <= i < |l| ==> LowAlerts(l)[i] == FromLow(l[i])
    ensures forall i :: 0 <= i < |r| ==> ReorderAlerts(r)[i] == FromReorder(r[i])
    decreases |c| + |l| + |r|
  {
    if c != [] { AlertsMirrorEntries(c[..|c| - 1], [], []); }
    if l != [] { AlertsMirrorEntries([], l[..|l| - 1], []); }
    if r != [] { AlertsMirrorEntries([], [], r[..|r| - 1]); }
  }

  /** The alerts in the order the three loops of `get_smart_alerts` append them, before sorting. */
  function Unsorted(report: HealthReport): (r: seq<Alert>)
    ensures |r| == |report.critical| + |report.low| + |report.reorders|
    ensures forall i :: 0 <= i < |report.critical| ==> r[i] == FromCritical(report.critical[i])
    ensures forall i :: 0 <= i < |report.low| ==> r[|report.critical| + i] == FromLow(report.low[i])
    ensures forall i :: 0 <= i < |report.reorders| ==> r[|report.critical| + |report.low| + i] == FromReorder(report.reorders[i])
  {
    AlertsMirrorEntries(report.critical, report.low, report.reorders);
    CriticalAlerts(report.critical) + LowAlerts(report.low) + ReorderAlerts(report.reorders)
  }

  ghost predicate SortedByPriority(s: seq<Alert>) {
    forall i, j :: 0 <= i < j < |s| ==> s[i].priority <= s[j].priority
  }

  /** Places `a` after every element of priority at most its own: the stable insertion step. */
  function Insert(s: seq<Alert>, a: Alert): (r: seq<Alert>)
    ensures multiset(r) == multiset(s) + multiset{a}
  {
    if s == [] then [a]
    else if s[|s| - 1].priority <= a.priority then s + [a]
    else
      var p := s[..|s| - 1];
      assert s == p + [s[|s| - 1]];
      Insert(p, a) + [s[|s| - 1]]
  }

  /** Inserting into a sorted list keeps it sorted. */
  lemma {:induction false} InsertSorted(s: seq<Alert>, a: Alert)
    requires SortedByPriority(s)
    ensures SortedByPriority(Insert(s, a))
  {
    if s != [] && s[|s| - 1].priority > a.priority {
      var p, last := s[..|s| - 1], s[|s| - 1];
      InsertSorted(p, a);
      var q := Insert(p, a);
      forall x | x in q ensures x.priority <= last.priority {
        assert x in multiset(q);
        assert x in multiset(p) || x == a;
      }
      assert Insert(s, a) == q + [last];
      forall i, j | 0 <= i < j < |q| + 1 ensures (q + [last])[i].priority <= (q + [last])[j].priority {
        if j == |q| {
          assert (q + [last])[i] == q[i] && q[i] in q;
        }
      }
    }
  }

  /** `alerts.sort(key=lambda x: x['priority'])`: a stable sort by priority. */
  function SortByPriority(s: seq<Alert>): (r: seq<Alert>)
    ensures multiset(r) == multiset(s)
  {
    if s == [] then []
    else
      var p := s[..|s| - 1];
      assert s == p + [s[|s| - 1]];
      Insert(SortByPriority(p), s[|s| - 1])
  }

  /** The sort returns a permutation of its input ordered by priority. */
  lemma {:induction false} SortByPrioritySorted(s: seq<Alert>)
    ensures SortedByPriority(SortByPriority(s))
    ensures multiset(SortByPriority(s)) == multiset(s)
  {
    if s != [] {
      SortByPrioritySorted(s[..|s| - 1]);
      InsertSorted(SortByPriority(s[..|s| - 1]), s[|s| - 1]);
    }
  }

  /** A stable sort leaves an already sorted list as it is. */
  lemma {:induction false} SortSorted(s: seq<Alert>)
    requires SortedByPriority(s)
    ensures SortByPriority(s) == s
  {
    if s != [] {
      var p := s[..|s| - 1];
      SortSorted(p);
      assert s == p + [s[|s| - 1]];
    }
  }

  /** Every alert built from the critical, low and reorder lists carries priority 1, 2 and 3 respectively. */
  lemma {:induction false} AlertPriorities(c: seq<StockAlert>, l: seq<StockAlert>, r: seq<ReorderRecommendation>)
    ensures forall a :: a in CriticalAlerts(c) ==> a.priority == 1 && a.kind == CriticalAlert
    ensures forall a :: a in LowAlerts(l) ==> a.priority == 2 && a.kind == LowStockAlert
    ensures forall a :: a in ReorderAlerts(r) ==> a.priority == 3 && a.kind == ReorderAlert
    decreases |c| + |l| + |r|
  {
    if c != [] { AlertPriorities(c[..|c| - 1], [], []); }
    if l != [] { AlertPriorities([], l[..|l| - 1], []); }
    if r != [] { AlertPriorities([], [], r[..|r| - 1]); }
  }

  /** The priority of position `k` of the appended list: 1 in the critical part, 2 in the low part, 3 after. */
  function Rank(report: HealthReport, k: int): int {
    if k < |report.critical| then 1 else if k < |report.critical| + |report.low| then 2 else 3
  }

  lemma UnsortedPriority(report: HealthReport, k: int)
    requires 0 <= k < |Unsorted(report)|
    ensures Unsorted(report)[k].priority == Rank(report, k)
  {
    var u := Unsorted(report);
    var nc, nl := |report.critical|, |report.low|;
    if k < nc {
      var a := report.critical[k];
      assert u[k] == FromCritical(a);
    } else if k < nc + nl {
      var a := report.low[k - nc];
      assert u[nc + (k - nc)] == FromLow(a);
    } else {
      var a := report.reorders[k - nc - nl];
      assert u[nc + nl + (k - nc - nl)] == FromReorder(a);
    }
  }

  /** Critical (1), then low (2), then reorder (3): the appended list is already in priority order. */
  lemma UnsortedIsSorted(report: HealthReport)
    ensures SortedByPriority(Unsorted(report))
  {
    var u := Unsorted(report);
    forall i, j | 0 <= i < j < |u| ensures u[i].priority <= u[j].priority {
      UnsortedPriority(report, i);
      UnsortedPriority(report, j);
    }
  }

  /**
   * `get_smart_alerts`: raises when the analysis does; otherwise one alert per critical, low and
   * reorder entry, with priorities 1, 2 and 3, sorted by priority; the sort changes nothing, so
   * within a priority the material order is kept.
   */
  method GetSmartAlerts(materials: seq<Material>, days: Material -> int, supply: int) returns (alerts: Raises<seq<Alert>>)
    ensures alerts.TypeError? <==> Health(materials, days, supply).TypeError?
    ensures alerts.Ok? ==> alerts.value == Unsorted(Health(materials, days, supply).value)
    ensures alerts.Ok? ==> SortedByPriority(alerts.value)
    ensures alerts.Ok? ==>
              |alerts.value| == |Health(materials, days, supply).value.critical| + |Health(materials, days, supply).value.low|
                                + |Health(materials, days, supply).value.reorders|
  {
    var outcome := AnalyzeInventoryHealth(materials, days, supply);
    if outcome.TypeError? {
      return TypeError;
    }
    var analysis := outcome.value;
    var list := [];
    var i := 0;
    while i < |analysis.critical|
      invariant 0 <= i <= |analysis.critical|
      invariant list == CriticalAlerts(analysis.critical[..i])
    {
      assert analysis.critical[..i + 1][..i] == analysis.critical[..i];
      list := list + [FromCritical(analysis.critical[i])];
      i := i + 1;
    }
    assert analysis.critical[..i] == analysis.critical;
    i := 0;
    while i < |analysis.low|
      invariant 0 <= i <= |analysis.low|
      invariant list == CriticalAlerts(analysis.critical) + LowAlerts(analysis.low[..i])
    {
      assert analysis.low[..i + 1][..i] == analysis.low[..i];
      list := list + [FromLow(analysis.low[i])];
      i := i + 1;
    }
    assert analysis.low[..i] == analysis.low;
    i := 0;
    while i < |analysis.reorders|
      invariant 0 <= i <= |analysis.reorders|
      invariant list == CriticalAlerts(analysis.critical) + LowAlerts(analysis.low) + ReorderAlerts(analysis.reorders[..i])
    {
      assert analysis.reorders[..i + 1][..i] == analysis.reorders[..i];
      list := list + [FromReorder(analysis.reorders[i])];
      i := i + 1;
    }
    assert analysis.reorders[..i] == analysis.reorders;
    UnsortedIsSorted(analysis);
    SortSorted(list);
    alerts := Ok(SortByPriority(list));
  }
}
