/** The inputs `simulate` builds for the ADORB cost model (REVIVE2024/simulate.py,
    `add_item_to_adorb_inputs` and the two loops that call it). Every priced line item
    and every appliance adds, for each year it is installed or replaced, one
    direct-maintenance entry (its cost) to `dirMR` and one embodied-carbon entry (its
    carbon cost) to `emCO2`. */
module Adorb {
  import opened Common
  import opened Text

  // ---------------------------------------------------------------------------
  // Python's `range` and `int`

  /** Python's `range(start, stop, step)` for a non-zero step. */
  function PyRange(start: int, stop: int, step: int): seq<int>
    requires step != 0
    decreases if step > 0 then stop - start else start - stop
  {
    if (step > 0 && start < stop) || (step < 0 && start > stop) then [start] + PyRange(start + step, stop, step)
    else []
  }

  /** The k-th value of a range is `start + k * step`. */
  lemma {:induction false} RangeElements(start: int, stop: int, step: int)
    requires step != 0
    ensures forall k :: 0 <= k < |PyRange(start, stop, step)| ==> PyRange(start, stop, step)[k] == start + k * step
    decreases if step > 0 then stop - start else start - stop
  {
    var r := PyRange(start, stop, step);
    if |r| > 0 {
      var rest := PyRange(start + step, stop, step);
      RangeElements(start + step, stop, step);
      forall k | 0 < k < |r|
        ensures r[k] == start + k * step
      {
        assert r[k] == rest[k - 1] == start + step + (k - 1) * step;
        assert (k - 1) * step + step == k * step;
      }
    }
  }

  /** A range with a positive step counts up from `start` and stays below `stop`. */
  lemma {:induction false} RangeBounds(start: int, stop: int, step: int)
    requires step > 0
    ensures forall k :: 0 <= k < |PyRange(start, stop, step)| ==> start <= PyRange(start, stop, step)[k] < stop
    ensures forall j, k :: 0 <= j < k < |PyRange(start, stop, step)| ==> PyRange(start, stop, step)[j] < PyRange(start, stop, step)[k]
    decreases stop - start
  {
    var r := PyRange(start, stop, step);
    if |r| > 0 {
      var rest := PyRange(start + step, stop, step);
      RangeBounds(start + step, stop, step);
      assert forall k :: 0 < k < |r| ==> r[k] == rest[k - 1];
    }
  }

  /** A range with a positive step has ceil((stop - start) / step) values. */
  lemma {:induction false} RangeCount(start: int, stop: int, step: int)
    requires step > 0
    ensures |PyRange(start, stop, step)| == if start < stop then (stop - start + step - 1) / step else 0
    decreases stop - start
  {
    if start < stop {
      if start + step < stop {
        RangeCount(start + step, stop, step);
        DivStep(stop - start - 1, step);
      } else {
        DivUnique(stop - start + step - 1, step, 1, stop - start - 1);
      }
    }
  }

  /** A spreadsheet cell holding a number, or pandas' NaN for an empty cell. */
  datatype Cell = Nan | Num(x: real)

  /** Python's `int(x)` on a float: truncation toward zero, and ValueError on NaN. */
  function PyInt(c: Cell): (r: Result<int>)
    ensures c.Nan? <==> r == Err(NanToInteger)
    ensures c.Num? && c.x >= 0.0 ==> r.Ok? && 0 <= r.value && r.value as real <= c.x < r.value as real + 1.0
    ensures c.Num? && c.x < 0.0 ==> r.Ok? && r.value <= 0 && r.value as real - 1.0 < c.x <= r.value as real
  {
    match c
    case Nan => Err(NanToInteger)
    case Num(x) => if x >= 0.0 then Ok(x.Floor) else Ok(-((-x).Floor))
  }

  // ---------------------------------------------------------------------------
  // One item

  /** A construction-list row as `add_item_to_adorb_inputs` reads it. */
  datatype Construction = Construction(laborFraction: real, lifetime: Cell, mechanicalCost: real)

  /** What `add_item_to_adorb_inputs` reads from its enclosing scope: the construction
      list keyed by lower-cased name, the emissions factor of each country, the
      envelope country and the analysis duration in years. */
  datatype Pricing = Pricing(constructions: map<string, Construction>, factors: map<string, real>,
                             country: string, duration: int)

  /** One `[amount, year]` pair of `dirMR` or `emCO2`. */
  datatype Entry = Entry(amount: real, year: int)

  /** Entries appended to `dirMR` and to `emCO2`. */
  type Added = (seq<Entry>, seq<Entry>)

  /** The price of carbon, in dollars per kilogram. */
  const PriceOfCarbon: real := 0.25

  /** The years an item is paid for: `range(0, duration, lifetime)`, or year 0 alone
      when the lifetime is zero. */
  function ReplacementYears(duration: int, lifetime: int): seq<int> {
    if lifetime != 0 then PyRange(0, duration, lifetime) else [0]
  }

  /** With a positive lifetime an item is bought at year 0 and again every `lifetime`
      years while the analysis lasts: ceil(duration / lifetime) purchases, in increasing
      year order. */
  lemma ReplacementSchedule(duration: int, lifetime: int)
    requires lifetime > 0
    ensures var years := ReplacementYears(duration, lifetime);
            && |years| == (if duration > 0 then (duration + lifetime - 1) / lifetime else 0)
            && (forall k :: 0 <= k < |years| ==> years[k] == k * lifetime && 0 <= years[k] < duration)
            && (forall j, k :: 0 <= j < k < |years| ==> years[j] < years[k])
  {
    RangeCount(0, duration, lifetime);
    RangeElements(0, duration, lifetime);
    RangeBounds(0, duration, lifetime);
  }

  /** The same amount at each of the given years. */
  function Priced(amount: real, years: seq<int>): (r: seq<Entry>)
    ensures |r| == |years| && forall i :: 0 <= i < |years| ==> r[i] == Entry(amount, years[i])
  {
    seq(|years|, i requires 0 <= i < |years| => Entry(amount, years[i]))
  }

  lemma PricedStep(amount: real, years: seq<int>, i: nat)
    requires i < |years|
    ensures Priced(amount, years[..i + 1]) == Priced(amount, years[..i]) + [Entry(amount, years[i])]
  {
  }

  /** Two entry lists that name the same years in the same order. */
  predicate Paired(costs: seq<Entry>, carbon: seq<Entry>) {
    |costs| == |carbon| && forall k :: 0 <= k < |costs| ==> costs[k].year == carbon[k].year
  }

  lemma PairedConcat(a0: seq<Entry>, a1: seq<Entry>, b0: seq<Entry>, b1: seq<Entry>)
    requires Paired(a0, a1) && Paired(b0, b1)
    ensures Paired(a0 + b0, a1 + b1)
  {
    forall k | 0 <= k < |a0 + b0|
      ensures (a0 + b0)[k].year == (a1 + b1)[k].year
    {
      if k < |a0| {
        assert (a0 + b0)[k] == a0[k] && (a1 + b1)[k] == a1[k];
      } else {
        assert (a0 + b0)[k] == b0[k - |a0|] && (a1 + b1)[k] == b1[k - |a0|];
      }
    }
  }

  /** What one `add_item_to_adorb_inputs(name, cost)` appends to `dirMR` and `emCO2`.
      The country's emissions factor is looked up first and outside the `try`, so an
      unknown country raises; an unknown item is caught, reported and adds nothing; a
      NaN lifetime raises from `int`, which the `except KeyError` does not catch. */
  function ItemEntries(name: string, cost: Option<real>, p: Pricing): Result<Added> {
    if p.country !in p.factors then Err(KeyMissing(p.country))
    else if name !in p.constructions then Ok(([], []))
    else
      var lifetime := PyInt(p.constructions[name].lifetime);
      if lifetime.Err? then Err(lifetime.fault)
      else Ok(Purchases(p.constructions[name], cost, p.factors[p.country], p.duration, lifetime.value))
  }

  /** The carbon cost of buying an item once: its cost without the labour share, times
      the emissions factor, times the price of carbon. */
  function Embodied(cost: real, laborFraction: real, factor: real): real {
    (cost * (1.0 - laborFraction)) * (factor * PriceOfCarbon)
  }

  /** The entries of a known item: its cost (the line's subtotal, or the construction's
      mechanical cost for an appliance) at each replacement year, and its embodied
      carbon cost, the cost without labour times the emissions factor times the price
      of carbon, at the same years. */
  function Purchases(item: Construction, cost: Option<real>, factor: real, duration: int, lifetime: int): Added {
    var c := if cost.None? then item.mechanicalCost else cost.value;
    var embodied := Embodied(c, item.laborFraction, factor);
    var years := ReplacementYears(duration, lifetime);
    (Priced(c, years), Priced(embodied, years))
  }

  /** An item raises exactly when the country has no emissions factor (a KeyError
      naming the country) or the item's lifetime is NaN; an unknown item adds nothing;
      otherwise both lists gain one entry per replacement year, the maintenance entries
      carrying the given cost. */
  lemma ItemEntriesOutcome(name: string, cost: Option<real>, p: Pricing)
    ensures var r := ItemEntries(name, cost, p);
            && (r.Err? <==> p.country !in p.factors || (name in p.constructions && p.constructions[name].lifetime.Nan?))
            && (p.country !in p.factors ==> r == Err(KeyMissing(p.country)))
            && (p.country in p.factors && name !in p.constructions ==> r == Ok(([], [])))
            && (r.Ok? ==> Paired(r.value.0, r.value.1))
            && (r.Ok? && cost.Some? ==> forall k :: 0 <= k < |r.value.0| ==> r.value.0[k].amount == cost.value)
  {
    if p.country in p.factors && name in p.constructions {
      var item := p.constructions[name];
      match PyInt(item.lifetime)
      case Err(f) =>
      case Ok(lifetime) =>
        var item := p.constructions[name];
        var c := if cost.None? then item.mechanicalCost else cost.value;
        var years := ReplacementYears(p.duration, lifetime);
        assert ItemEntries(name, cost, p).value.0 == Priced(c, years);
    }
  }

  /** A known item with a positive whole lifetime is charged its cost once per
      replacement year, and its carbon cost is its cost without labour, times the
      country's emissions factor, times the price of carbon. */
  lemma KnownItemCharges(name: string, cost: real, p: Pricing, lifetime: int)
    requires p.country in p.factors && name in p.constructions
    requires p.constructions[name].lifetime == Num(lifetime as real) && lifetime > 0
    ensures var r := ItemEntries(name, Some(cost), p);
            && r.Ok?
            && |r.value.0| == (if p.duration > 0 then (p.duration + lifetime - 1) / lifetime else 0)
            && (forall k :: 0 <= k < |r.value.0| ==> r.value.0[k] == Entry(cost, k * lifetime))
            && (forall k :: 0 <= k < |r.value.1| ==>
                  r.value.1[k].amount == Embodied(cost, p.constructions[name].laborFraction, p.factors[p.country]))
  {
    assert PyInt(p.constructions[name].lifetime) == Ok(lifetime);
    ReplacementSchedule(p.duration, lifetime);
  }

  /** A known item whose lifetime truncates to zero is charged exactly once, at year 0. */
  lemma PermanentItemChargedOnce(name: string, cost: Option<real>, p: Pricing)
    requires p.country in p.factors && name in p.constructions
    requires p.constructions[name].lifetime.Num? && 0.0 <= p.constructions[name].lifetime.x < 1.0
    ensures var r := ItemEntries(name, cost, p);
            r.Ok? && |r.value.0| == 1 && r.value.0[0].year == 0 && r.value.1[0].year == 0
  {
  }

  // ---------------------------------------------------------------------------
  // Item names

  /** The name under which a cost line item is looked up: lower-cased, one leading
      "mech_" removed; appliance and lighting lines are skipped (`None`) because each
      appliance is added on its own afterwards. */
  function ItemName(itemName: string): Option<string> {
    var lowered := Lower(itemName);
    var name := if StartsWith(lowered, "mech_") then lowered[5..] else lowered;
    if name == "appliances" || name == "lights" then None else Some(name)
  }

  /** A line is skipped exactly when its lower-cased name, less any "mech_" label, is
      "appliances" or "lights"; any other line is looked up under its lower-cased name,
      less that label. */
  lemma ItemNameMeaning(itemName: string)
    ensures var l := Lower(itemName);
            && (ItemName(itemName).None? <==> var n := if StartsWith(l, "mech_") then l[5..] else l;
                                             n == "appliances" || n == "lights")
            && (ItemName(itemName).Some? ==> l == ItemName(itemName).value || l == "mech_" + ItemName(itemName).value)
  {
    var l := Lower(itemName);
    if StartsWith(l, "mech_") {
      assert l == l[..5] + l[5..];
    }
  }

  /** A mechanical line is looked up under the name that follows its "MECH_" label. */
  lemma MechLabelDropped(x: string)
    ensures ItemName("MECH_" + x) == ItemName("mech_" + x)
    ensures ItemName("mech_" + x) == if Lower(x) == "appliances" || Lower(x) == "lights" then None else Some(Lower(x))
  {
    assert Lower("MECH_" + x) == "mech_" + Lower(x);
    assert Lower("mech_" + x) == "mech_" + Lower(x);
    assert ("mech_" + Lower(x))[..5] == "mech_";
    assert ("mech_" + Lower(x))[5..] == Lower(x);
  }

  /** The summary lines for appliances and lights are never priced as items, with or
      without a "MECH_" label. */
  lemma SummaryLinesSkipped(x: string)
    requires Lower(x) == "appliances" || Lower(x) == "lights"
    ensures ItemName(x) == None && ItemName("MECH_" + x) == None
  {
    MechLabelDropped(x);
    assert Lower(x)[0] != 'm';
  }

  // ---------------------------------------------------------------------------
  // All items

  /** One row of the cost line item table: its item name, quantity and subtotal. */
  datatype CostLine = CostLine(itemName: string, quantity: real, subtotal: real)

  /** The rows that are priced: the last (summation) row dropped, then the rows with a
      positive quantity, in table order. */
  function PricedLines(rows: seq<CostLine>): (r: seq<CostLine>)
    ensures |rows| <= 1 ==> r == []
    ensures forall x :: x in r <==> x.quantity > 0.0 && x in rows[..if |rows| == 0 then 0 else |rows| - 1]
    ensures |rows| > 0 ==> forall x :: multiset(r)[x] == if x.quantity > 0.0 then multiset(rows[..|rows| - 1])[x] else 0
  {
    if |rows| == 0 then []
    else
      PositiveCounts(rows[..|rows| - 1]);
      Positive(rows[..|rows| - 1])
  }

  /** The rows with a positive quantity (`df[df["Quantity."] > 0]`). */
  function Positive(rows: seq<CostLine>): seq<CostLine> {
    if |rows| == 0 then []
    else Positive(rows[..|rows| - 1]) + if rows[|rows| - 1].quantity > 0.0 then [rows[|rows| - 1]] else []
  }

  /** The positive rows are the rows with a positive quantity, each as often as the
      table holds it. */
  lemma {:induction false} PositiveCounts(rows: seq<CostLine>)
    ensures forall x :: x in Positive(rows) <==> x.quantity > 0.0 && x in rows
    ensures forall x :: multiset(Positive(rows))[x] == if x.quantity > 0.0 then multiset(rows)[x] else 0
  {
    if |rows| > 0 {
      var init, last := rows[..|rows| - 1], rows[|rows| - 1];
      PositiveCounts(init);
      assert rows == init + [last];
      assert forall x :: x in rows <==> x in init || x == last;
    }
  }

  /** The positive rows keep table order: the rows of a split table are filtered part
      by part, and one row is kept exactly when its quantity is positive. */
  lemma {:induction false} PositiveAppend(a: seq<CostLine>, b: seq<CostLine>)
    ensures Positive(a + b) == Positive(a) + Positive(b)
    decreases |b|
  {
    if |b| == 0 {
      assert a + b == a;
    } else {
      var init, last := b[..|b| - 1], b[|b| - 1];
      assert (a + b)[..|a + b| - 1] == a + init && (a + b)[|a + b| - 1] == last;
      PositiveAppend(a, init);
      var tail := if last.quantity > 0.0 then [last] else [];
      assert Positive(a + b) == Positive(a + init) + tail;
      assert Positive(b) == Positive(init) + tail;
    }
  }

  /** One call of `add_item_to_adorb_inputs`: a name and, for a line item, its cost. */
  datatype Call = Call(name: string, cost: Option<real>)

  /** The call a priced line makes when `name` maps its item name to a lookup name. */
  function LineCall(line: CostLine, name: string -> Option<string>): seq<Call> {
    match name(line.itemName)
    case None => []
    case Some(n) => [Call(n, Some(line.subtotal))]
  }

  /** The calls of a loop over `lines` that looks each one up under `name`, in order. */
  function NamedCalls(lines: seq<CostLine>, name: string -> Option<string>): (r: seq<Call>)
    ensures |r| <= |lines|
  {
    if |lines| == 0 then [] else NamedCalls(lines[..|lines| - 1], name) + LineCall(lines[|lines| - 1], name)
  }

  /** The calls of the line-item loop, in table order. */
  function LineCalls(lines: seq<CostLine>): seq<Call> {
    NamedCalls(lines, ItemName)
  }

  /** The calls of the appliance loop: every appliance, lower-cased, priced from the
      construction list. */
  function ApplianceCalls(appliances: seq<string>): (r: seq<Call>)
    ensures |r| == |appliances| && forall i :: 0 <= i < |appliances| ==> r[i] == Call(Lower(appliances[i]), None)
  {
    seq(|appliances|, i requires 0 <= i < |appliances| => Call(Lower(appliances[i]), None))
  }

  /** The appends of `done` followed by those of `more`; the first raise wins. */
  function Then(done: Result<Added>, more: Result<Added>): Result<Added> {
    if done.Err? then done
    else if more.Err? then more
    else Ok((done.value.0 + more.value.0, done.value.1 + more.value.1))
  }

  lemma ThenAssociates(a: Result<Added>, b: Result<Added>, c: Result<Added>)
    ensures Then(Then(a, b), c) == Then(a, Then(b, c))
  {
    if a.Ok? && b.Ok? && c.Ok? {
      assert (a.value.0 + b.value.0) + c.value.0 == a.value.0 + (b.value.0 + c.value.0);
      assert (a.value.1 + b.value.1) + c.value.1 == a.value.1 + (b.value.1 + c.value.1);
    }
  }

  /** Every call in turn, with the entries they append; the first raise stops them. */
  function RunCalls(calls: seq<Call>, p: Pricing): Result<Added> {
    if |calls| == 0 then Ok(([], []))
    else Then(RunCalls(calls[..|calls| - 1], p), ItemEntries(calls[|calls| - 1].name, calls[|calls| - 1].cost, p))
  }

  lemma RunCallsStep(calls: seq<Call>, c: Call, p: Pricing)
    ensures RunCalls(calls + [c], p) == Then(RunCalls(calls, p), ItemEntries(c.name, c.cost, p))
  {
    assert (calls + [c])[..|calls|] == calls;
  }

  /** Running two lists of calls one after the other is running their concatenation. */
  lemma {:induction false} RunCallsAppend(xs: seq<Call>, ys: seq<Call>, p: Pricing)
    ensures RunCalls(xs + ys, p) == Then(RunCalls(xs, p), RunCalls(ys, p))
    decreases |ys|
  {
    if |ys| == 0 {
      assert xs + ys == xs;
      var a := RunCalls(xs, p);
      if a.Ok? {
        assert a.value.0 + [] == a.value.0 && a.value.1 + [] == a.value.1;
      }
    } else {
      var init, last := ys[..|ys| - 1], ys[|ys| - 1];
      RunCallsAppend(xs, init, p);
      assert xs + ys == (xs + init) + [last];
      RunCallsStep(xs + init, last, p);
      ThenAssociates(RunCalls(xs, p), RunCalls(init, p), ItemEntries(last.name, last.cost, p));
    }
  }

  /** One more call after a run of calls that did not raise: either it raises, and so
      does the whole run, or it appends its entries. */
  lemma RunCallsNext(calls: seq<Call>, k: nat, done: Added, p: Pricing)
    requires k < |calls| && RunCalls(calls[..k], p) == Ok(done)
    ensures var e := ItemEntries(calls[k].name, calls[k].cost, p);
            && (e.Err? ==> RunCalls(calls, p) == e)
            && (e.Ok? ==> RunCalls(calls[..k + 1], p) == Ok((done.0 + e.value.0, done.1 + e.value.1)))
  {
    var head, rest := calls[..k + 1], calls[k + 1..];
    assert head == calls[..k] + [calls[k]];
    RunCallsStep(calls[..k], calls[k], p);
    var e := ItemEntries(calls[k].name, calls[k].cost, p);
    assert RunCalls(head, p) == Then(Ok(done), e);
    if e.Err? {
      assert calls == head + rest;
      RunCallsAppend(head, rest, p);
      assert RunCalls(calls, p) == Then(RunCalls(head, p), RunCalls(rest, p));
    }
  }

  /** `dirMR` and `emCO2` grow in step: every maintenance entry has a carbon entry for
      the same year at the same position. */
  lemma {:induction false} EntriesPairUp(calls: seq<Call>, p: Pricing)
    requires RunCalls(calls, p).Ok?
    ensures Paired(RunCalls(calls, p).value.0, RunCalls(calls, p).value.1)
  {
    if |calls| > 0 {
      var init := calls[..|calls| - 1];
      EntriesPairUp(init, p);
      var done := RunCalls(init, p).value;
      ItemEntriesOutcome(calls[|calls| - 1].name, calls[|calls| - 1].cost, p);
      var added := ItemEntries(calls[|calls| - 1].name, calls[|calls| - 1].cost, p).value;
      PairedConcat(done.0, done.1, added.0, added.1);
    }
  }

  /** Without an emissions factor for the envelope country the first call raises; with
      no calls at all nothing is looked up. */
  lemma UnknownCountryRaises(calls: seq<Call>, p: Pricing)
    requires p.country !in p.factors
    ensures RunCalls(calls, p) == if |calls| == 0 then Ok(([], [])) else Err(KeyMissing(p.country))
  {
    if |calls| > 0 {
      RunCallsAppend(calls[..1], calls[1..], p);
      assert calls[..1] + calls[1..] == calls;
      RunCallsStep([], calls[0], p);
      assert [] + [calls[0]] == calls[..1];
    }
  }

  /** The `dirMR` and `emCO2` lists `simulate` passes to the ADORB model. */
  class AdorbInputs {
    var dirMR: seq<Entry>
    var emCO2: seq<Entry>

    /** The lists as the carbon measures and first cost leave them. */
    constructor(measureCosts: seq<Entry>, measureCarbon: seq<Entry>)
      ensures dirMR == measureCosts && emCO2 == measureCarbon
    {
      dirMR := measureCosts;
      emCO2 := measureCarbon;
    }

    /** `add_item_to_adorb_inputs(name, cost)`. */
    method AddItem(name: string, cost: Option<real>, p: Pricing) returns (r: Outcome)
      modifies this
      ensures var e := ItemEntries(name, cost, p);
              && (e.Err? ==> r == Fail(e.fault) && dirMR == old(dirMR) && emCO2 == old(emCO2))
              && (e.Ok? ==> r == Pass && dirMR == old(dirMR) + e.value.0 && emCO2 == old(emCO2) + e.value.1)
    {
      if p.country !in p.factors {
        return Fail(KeyMissing(p.country));
      }
      var emissionsFactor := p.factors[p.country];
      if name !in p.constructions {
        return Pass;
      }
      var laborFraction := p.constructions[name].laborFraction;
      var lifetimeOrFault := PyInt(p.constructions[name].lifetime);
      if lifetimeOrFault.Err? {
        return Fail(lifetimeOrFault.fault);
      }
      var lifetime := lifetimeOrFault.value;
      var itemCost := if cost.None? then p.constructions[name].mechanicalCost else cost.value;
      var embodiedCarbon := Embodied(itemCost, laborFraction, emissionsFactor);
      ghost var years := ReplacementYears(p.duration, lifetime);
      if lifetime != 0 {
        var range := PyRange(0, p.duration, lifetime);
        for i := 0 to |range|
          invariant dirMR == old(dirMR) + Priced(itemCost, range[..i])
          invariant emCO2 == old(emCO2) + Priced(embodiedCarbon, range[..i])
        {
          PricedStep(itemCost, range, i);
          PricedStep(embodiedCarbon, range, i);
          dirMR := dirMR + [Entry(itemCost, range[i])];
          emCO2 := emCO2 + [Entry(embodiedCarbon, range[i])];
        }
        assert range[..|range|] == range == years;
      } else {
        assert Priced(itemCost, [0]) == [Entry(itemCost, 0)] && Priced(embodiedCarbon, [0]) == [Entry(embodiedCarbon, 0)];
        dirMR := dirMR + [Entry(itemCost, 0)];
        emCO2 := emCO2 + [Entry(embodiedCarbon, 0)];
      }
      assert Purchases(p.constructions[name], cost, emissionsFactor, p.duration, lifetime) ==
             (Priced(itemCost, years), Priced(embodiedCarbon, years));
      return Pass;
    }

    /** The line-item loop over the priced lines. */
    method AddLineItems(lines: seq<CostLine>, p: Pricing) returns (r: Outcome)
      modifies this
      ensures var e := RunCalls(LineCalls(lines), p);
              && (e.Err? ==> r == Fail(e.fault))
              && (e.Ok? ==> r == Pass && dirMR == old(dirMR) + e.value.0 && emCO2 == old(emCO2) + e.value.1)
    {
      ghost var done: Added := ([], []);
      for i := 0 to |lines|
        invariant RunCalls(LineCalls(lines[..i]), p) == Ok(done)
        invariant dirMR == old(dirMR) + done.0 && emCO2 == old(emCO2) + done.1
      {
        ghost var before := LineCalls(lines[..i]);
        NamedCallsStep(lines, i, ItemName);
        var name := ItemName(lines[i].itemName);
        if name.None? {
          assert LineCalls(lines[..i + 1]) == before;
          continue;
        }
        ghost var call := Call(name.value, Some(lines[i].subtotal));
        assert LineCalls(lines[..i + 1]) == before + [call];
        RunCallsStep(before, call, p);
        var added := AddItem(name.value, Some(lines[i].subtotal), p);
        if added.Fail? {
          LineFailureStays(lines, i + 1, ItemName, p);
          return added;
        }
        ghost var e := ItemEntries(call.name, call.cost, p).value;
        ConcatAssociates(old(dirMR), done.0, e.0);
        ConcatAssociates(old(emCO2), done.1, e.1);
        done := (done.0 + e.0, done.1 + e.1);
      }
      assert lines[..|lines|] == lines;
      return Pass;
    }

    /** The appliance loop: every appliance of the run list, lower-cased. */
    method AddAppliances(appliances: seq<string>, p: Pricing) returns (r: Outcome)
      modifies this
      ensures var e := RunCalls(ApplianceCalls(appliances), p);
              && (e.Err? ==> r == Fail(e.fault))
              && (e.Ok? ==> r == Pass && dirMR == old(dirMR) + e.value.0 && emCO2 == old(emCO2) + e.value.1)
    {
      ghost var calls := ApplianceCalls(appliances);
      ghost var done: Added := ([], []);
      for j := 0 to |appliances|
        invariant RunCalls(calls[..j], p) == Ok(done)
        invariant dirMR == old(dirMR) + done.0 && emCO2 == old(emCO2) + done.1
      {
        RunCallsNext(calls, j, done, p);
        var added := AddItem(Lower(appliances[j]), None, p);
        if added.Fail? {
          return added;
        }
        ghost var e := ItemEntries(calls[j].name, calls[j].cost, p).value;
        ConcatAssociates(old(dirMR), done.0, e.0);
        ConcatAssociates(old(emCO2), done.1, e.1);
        done := (done.0 + e.0, done.1 + e.1);
      }
      assert calls[..|appliances|] == calls;
      return Pass;
    }

    /** The line-item loop and then the appliance loop, with `rows` the cost line item
        table below its header and `applianceList` the run list's APPLIANCE_LIST cell. */
    method AddAllItems(rows: seq<CostLine>, applianceList: string, p: Pricing) returns (r: Outcome)
      modifies this
      ensures var e := RunCalls(LineCalls(PricedLines(rows)) + ApplianceCalls(Split(applianceList, ", ")), p);
              && (e.Err? ==> r == Fail(e.fault))
              && (e.Ok? ==> r == Pass && dirMR == old(dirMR) + e.value.0 && emCO2 == old(emCO2) + e.value.1)
    {
      var lines := PricedLines(rows);
      var appliances := Split(applianceList, ", ");
      RunCallsAppend(LineCalls(lines), ApplianceCalls(appliances), p);
      r := AddLineItems(lines, p);
      if r.Fail? {
        return;
      }
      ghost var mid0, mid1 := dirMR, emCO2;
      r := AddAppliances(appliances, p);
      if r.Pass? {
        var a, b := RunCalls(LineCalls(lines), p).value, RunCalls(ApplianceCalls(appliances), p).value;
        ConcatAssociates(old(dirMR), a.0, b.0);
        ConcatAssociates(old(emCO2), a.1, b.1);
      }
    }
  }

  /** The calls of one more line. */
  lemma NamedCallsStep(lines: seq<CostLine>, i: nat, name: string -> Option<string>)
    requires i < |lines|
    ensures NamedCalls(lines[..i + 1], name) == NamedCalls(lines[..i], name) + LineCall(lines[i], name)
  {
    assert lines[..i + 1][..i] == lines[..i];
  }

  /** Once a prefix of the lines raises, the whole loop raises the same error. */
  lemma {:induction false} LineFailureStays(lines: seq<CostLine>, j: nat, name: string -> Option<string>, p: Pricing)
    requires j <= |lines| && RunCalls(NamedCalls(lines[..j], name), p).Err?
    ensures RunCalls(NamedCalls(lines, name), p) == RunCalls(NamedCalls(lines[..j], name), p)
    decreases |lines| - j
  {
    if j == |lines| {
      assert lines[..j] == lines;
    } else {
      NamedCallsStep(lines, j, name);
      RunCallsAppend(NamedCalls(lines[..j], name), LineCall(lines[j], name), p);
      LineFailureStays(lines, j + 1, name, p);
    }
  }
}
