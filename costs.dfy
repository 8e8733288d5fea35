/** The cost summary `simulate` reads from the annual run's "Cost Line Item Details"
    table (REVIVE2024/simulate.py): each line item is charged to the first category
    whose keyword its name contains, category totals are sums, and the PV and battery
    costs are the last matching item's. A base case has every cost set to zero. */
module Costs {
  import opened Common
  import opened Text
  import opened CaseInputs

  datatype Category = Wall | Roof | Floor | Window | Door | AirSealing | Mech | Dhw | Appliances | Pv | Battery | Other

  /** One row of the line-item table: its name (column 2) and its cost (column 6). */
  datatype LineItem = LineItem(name: string, cost: real)

  /** The keywords in precedence order, with the category each one charges. */
  const Keywords: seq<(string, Category)> := [
    ("WALL", Wall), ("ROOF", Roof), ("FLOOR", Floor), ("WINDOW", Window), ("DOOR", Door),
    ("AIR SEALING", AirSealing), ("MECH", Mech), ("DHW", Dhw), ("APPLIANCES", Appliances),
    ("LIGHTS", Appliances), ("PV COST", Pv), ("BATTERY COST", Battery)
  ]

  /** The category of the first keyword at or after position `i` that `name` contains. */
  function FirstMatch(keywords: seq<(string, Category)>, name: string, i: nat): Category
    decreases |keywords| - i
  {
    if i >= |keywords| then Other
    else if Contains(name, keywords[i].0) then keywords[i].1
    else FirstMatch(keywords, name, i + 1)
  }

  /** A name is charged by the first keyword it contains, and by nothing when it
      contains none. */
  lemma {:induction false} FirstMatchMeaning(keywords: seq<(string, Category)>, name: string, i: nat)
    requires i <= |keywords|
    ensures (forall k :: i <= k < |keywords| ==> !Contains(name, keywords[k].0)) ==> FirstMatch(keywords, name, i) == Other
    ensures forall k :: i <= k < |keywords| && Contains(name, keywords[k].0) &&
                        (forall j :: i <= j < k ==> !Contains(name, keywords[j].0)) ==>
                        FirstMatch(keywords, name, i) == keywords[k].1
    decreases |keywords| - i
  {
    if i < |keywords| {
      FirstMatchMeaning(keywords, name, i + 1);
    }
  }

  /** The category a line item is charged to. */
  function CategoryOf(name: string): Category {
    FirstMatch(Keywords, name, 0)
  }

  /** The `if`/`elif` chain of `simulate`, keyword by keyword. */
  function CategoryChain(name: string): Category {
    if Contains(name, "WALL") then Wall
    else if Contains(name, "ROOF") then Roof
    else if Contains(name, "FLOOR") then Floor
    else if Contains(name, "WINDOW") then Window
    else if Contains(name, "DOOR") then Door
    else if Contains(name, "AIR SEALING") then AirSealing
    else if Contains(name, "MECH") then Mech
    else if Contains(name, "DHW") then Dhw
    else if Contains(name, "APPLIANCES") then Appliances
    else if Contains(name, "LIGHTS") then Appliances
    else if Contains(name, "PV COST") then Pv
    else if Contains(name, "BATTERY COST") then Battery
    else Other
  }

  /** The first four links of the chain. */
  lemma FirstKeywords(name: string)
    ensures FirstMatch(Keywords, name, 0) ==
            if Contains(name, "WALL") then Wall
            else if Contains(name, "ROOF") then Roof
            else if Contains(name, "FLOOR") then Floor
            else if Contains(name, "WINDOW") then Window
            else FirstMatch(Keywords, name, 4)
  {
    var k := Keywords;
    assert FirstMatch(k, name, 0) == if Contains(name, k[0].0) then k[0].1 else FirstMatch(k, name, 1);
    assert FirstMatch(k, name, 1) == if Contains(name, k[1].0) then k[1].1 else FirstMatch(k, name, 2);
    assert FirstMatch(k, name, 2) == if Contains(name, k[2].0) then k[2].1 else FirstMatch(k, name, 3);
    assert FirstMatch(k, name, 3) == if Contains(name, k[3].0) then k[3].1 else FirstMatch(k, name, 4);
  }

  /** The middle four links of the chain. */
  lemma MiddleKeywords(name: string)
    ensures FirstMatch(Keywords, name, 4) ==
            if Contains(name, "DOOR") then Door
            else if Contains(name, "AIR SEALING") then AirSealing
            else if Contains(name, "MECH") then Mech
            else if Contains(name, "DHW") then Dhw
            else FirstMatch(Keywords, name, 8)
  {
    var k := Keywords;
    assert FirstMatch(k, name, 4) == if Contains(name, k[4].0) then k[4].1 else FirstMatch(k, name, 5);
    assert FirstMatch(k, name, 5) == if Contains(name, k[5].0) then k[5].1 else FirstMatch(k, name, 6);
    assert FirstMatch(k, name, 6) == if Contains(name, k[6].0) then k[6].1 else FirstMatch(k, name, 7);
    assert FirstMatch(k, name, 7) == if Contains(name, k[7].0) then k[7].1 else FirstMatch(k, name, 8);
  }

  /** The last four links of the chain, and its end. */
  lemma LastKeywords(name: string)
    ensures FirstMatch(Keywords, name, 8) ==
            if Contains(name, "APPLIANCES") then Appliances
            else if Contains(name, "LIGHTS") then Appliances
            else if Contains(name, "PV COST") then Pv
            else if Contains(name, "BATTERY COST") then Battery
            else Other
  {
    var k := Keywords;
    assert FirstMatch(k, name, 8) == if Contains(name, k[8].0) then k[8].1 else FirstMatch(k, name, 9);
    assert FirstMatch(k, name, 9) == if Contains(name, k[9].0) then k[9].1 else FirstMatch(k, name, 10);
    assert FirstMatch(k, name, 10) == if Contains(name, k[10].0) then k[10].1 else FirstMatch(k, name, 11);
    assert FirstMatch(k, name, 11) == if Contains(name, k[11].0) then k[11].1 else FirstMatch(k, name, 12);
  }

  /** The chain is first match over the keyword list, so an earlier keyword wins
      (a "WALL WINDOW" line is a wall cost) and LIGHTS lines are appliance costs. */
  lemma CategoryChainIsFirstMatch(name: string)
    ensures CategoryChain(name) == CategoryOf(name)
  {
    FirstKeywords(name);
    MiddleKeywords(name);
    LastKeywords(name);
  }

  /** A line item once classified: the category it is charged to and its cost. */
  datatype Charge = Charge(category: Category, cost: real)

  function Charges(items: seq<LineItem>): (r: seq<Charge>)
    ensures |r| == |items| && forall i :: 0 <= i < |items| ==> r[i] == Charge(CategoryOf(items[i].name), items[i].cost)
  {
    seq(|items|, i requires 0 <= i < |items| => Charge(CategoryOf(items[i].name), items[i].cost))
  }

  /** The costs charged to `c`, in table order. */
  function CostsOf(charges: seq<Charge>, c: Category): (r: seq<real>)
    ensures |r| <= |charges|
  {
    if |charges| == 0 then []
    else
      var last := charges[|charges| - 1];
      CostsOf(charges[..|charges| - 1], c) + if last.category == c then [last.cost] else []
  }

  /** A category's list keeps table order and multiplicity: the charges of a split
      table are listed part by part, and one charge contributes its cost exactly when
      it goes to the category; so every item is listed once per occurrence. */
  lemma {:induction false} CostsOfAppend(a: seq<Charge>, b: seq<Charge>, c: Category)
    ensures CostsOf(a + b, c) == CostsOf(a, c) + CostsOf(b, c)
    decreases |b|
  {
    if |b| == 0 {
      assert a + b == a;
    } else {
      var init, last := b[..|b| - 1], b[|b| - 1];
      assert (a + b)[..|a + b| - 1] == a + init && (a + b)[|a + b| - 1] == last;
      CostsOfAppend(a, init, c);
      var tail := if last.category == c then [last.cost] else [];
      assert CostsOf(a + b, c) == CostsOf(a + init, c) + tail;
      assert CostsOf(b, c) == CostsOf(init, c) + tail;
    }
  }

  lemma CostsOfSingle(x: Charge, c: Category)
    ensures CostsOf([x], c) == if x.category == c then [x.cost] else []
  {
    assert [x][..0] == [];
  }

  /** The cost of the last charge to `c`, if any. */
  function LastOf(charges: seq<Charge>, c: Category): (r: Option<real>)
    ensures r.None? <==> forall i :: 0 <= i < |charges| ==> charges[i].category != c
    ensures r.Some? ==> exists i :: 0 <= i < |charges| && charges[i] == Charge(c, r.value) &&
                                    forall j :: i < j < |charges| ==> charges[j].category != c
  {
    if |charges| == 0 then None
    else
      var last := charges[|charges| - 1];
      var init := charges[..|charges| - 1];
      assert forall i :: 0 <= i < |init| ==> init[i] == charges[i];
      if last.category == c then Some(last.cost) else LastOf(init, c)
  }

  function Sum(xs: seq<real>): real {
    if |xs| == 0 then 0.0 else Sum(xs[..|xs| - 1]) + xs[|xs| - 1]
  }

  datatype CostSummary = CostSummary(
    firstCost: real, wall: real, roof: real, floor: real, window: real, door: real,
    airSealing: real, mech: real, dhw: real, appliances: real, pv: real, battery: real)

  const ZeroCosts: CostSummary := CostSummary(0.0, 0.0, 0.0, 0.0, 0.0, 0.0, 0.0, 0.0, 0.0, 0.0, 0.0, 0.0)

  /** The totals of a classified table whose PV and battery costs are known. */
  function Totals(firstCost: real, cs: seq<Charge>, pv: real, battery: real): CostSummary {
    CostSummary(firstCost, Sum(CostsOf(cs, Wall)), Sum(CostsOf(cs, Roof)), Sum(CostsOf(cs, Floor)),
                Sum(CostsOf(cs, Window)), Sum(CostsOf(cs, Door)), Sum(CostsOf(cs, AirSealing)),
                Sum(CostsOf(cs, Mech)), Sum(CostsOf(cs, Dhw)), Sum(CostsOf(cs, Appliances)), pv, battery)
  }

  /** What the cost pass yields: zeros for a base case; otherwise the sums and last
      matches, where a PV or battery cost with no matching item is a variable read
      before assignment (PV first, as the source reads it first). */
  function Summary(baseFileName: string, firstCost: real, items: seq<LineItem>): Result<CostSummary> {
    if Contains(baseFileName, "BASE") then Ok(ZeroCosts)
    else
      var cs := Charges(items);
      match (LastOf(cs, Pv), LastOf(cs, Battery))
      case (None, _) => Err(Unbound("pvCost"))
      case (_, None) => Err(Unbound("batteryCost"))
      case (Some(pv), Some(battery)) => Ok(Totals(firstCost, cs, pv, battery))
  }

  /** Every category's list and last match after one more charge. */
  lemma Advance(cs: seq<Charge>, i: nat)
    requires i < |cs|
    ensures forall c :: CostsOf(cs[..i + 1], c) == CostsOf(cs[..i], c) + if cs[i].category == c then [cs[i].cost] else []
    ensures forall c :: LastOf(cs[..i + 1], c) == if cs[i].category == c then Some(cs[i].cost) else LastOf(cs[..i], c)
  {
    var next := cs[..i + 1];
    assert next[..i] == cs[..i] && next[i] == cs[i];
    forall c ensures CostsOf(next, c) == CostsOf(cs[..i], c) + if cs[i].category == c then [cs[i].cost] else [] {
    }
    forall c ensures LastOf(next, c) == if cs[i].category == c then Some(cs[i].cost) else LastOf(cs[..i], c) {
    }
  }

  /** The cost pass of `simulate`, with `firstCost` the construction cost estimate's
      total: one list per category filled by the `elif` chain, then summed. */
  method CategorizeCosts(baseFileName: string, firstCost: real, items: seq<LineItem>) returns (r: Result<CostSummary>)
    ensures r == Summary(baseFileName, firstCost, items)
  {
    if Contains(baseFileName, "BASE") {
      return Ok(ZeroCosts);
    }
    ghost var cs := Charges(items);
    var wallList, roofList, floorList, windowList, doorList := [], [], [], [], [];
    var airSealingList, mechList, dhwList, applianceList := [], [], [], [];
    var pvCost: Option<real> := None;
    var batteryCost: Option<real> := None;
    for row := 0 to |items|
      invariant wallList == CostsOf(cs[..row], Wall) && roofList == CostsOf(cs[..row], Roof)
      invariant floorList == CostsOf(cs[..row], Floor) && windowList == CostsOf(cs[..row], Window)
      invariant doorList == CostsOf(cs[..row], Door) && airSealingList == CostsOf(cs[..row], AirSealing)
      invariant mechList == CostsOf(cs[..row], Mech) && dhwList == CostsOf(cs[..row], Dhw)
      invariant applianceList == CostsOf(cs[..row], Appliances)
      invariant pvCost == LastOf(cs[..row], Pv) && batteryCost == LastOf(cs[..row], Battery)
    {
      var itemName, itemCost := items[row].name, items[row].cost;
      Advance(cs, row);
      CategoryChainIsFirstMatch(itemName);
      if Contains(itemName, "WALL") {
        wallList := wallList + [itemCost];
      } else if Contains(itemName, "ROOF") {
        roofList := roofList + [itemCost];
      } else if Contains(itemName, "FLOOR") {
        floorList := floorList + [itemCost];
      } else if Contains(itemName, "WINDOW") {
        windowList := windowList + [itemCost];
      } else if Contains(itemName, "DOOR") {
        doorList := doorList + [itemCost];
      } else if Contains(itemName, "AIR SEALING") {
        airSealingList := airSealingList + [itemCost];
      } else if Contains(itemName, "MECH") {
        mechList := mechList + [itemCost];
      } else if Contains(itemName, "DHW") {
        dhwList := dhwList + [itemCost];
      } else if Contains(itemName, "APPLIANCES") {
        applianceList := applianceList + [itemCost];
      } else if Contains(itemName, "LIGHTS") {
        applianceList := applianceList + [itemCost];
      } else if Contains(itemName, "PV COST") {
        pvCost := Some(itemCost);
      } else if Contains(itemName, "BATTERY COST") {
        batteryCost := Some(itemCost);
      }
    }
    assert cs[..|items|] == cs;
    if pvCost.None? {
      return Err(Unbound("pvCost"));
    }
    if batteryCost.None? {
      return Err(Unbound("batteryCost"));
    }
    return Ok(CostSummary(firstCost, Sum(wallList), Sum(roofList), Sum(floorList), Sum(windowList), Sum(doorList),
                          Sum(airSealingList), Sum(mechList), Sum(dhwList), Sum(applianceList), pvCost.value, batteryCost.value));
  }

  // ---------------------------------------------------------------------------
  // Properties

  const AllCategories: seq<Category> := [Wall, Roof, Floor, Window, Door, AirSealing, Mech, Dhw, Appliances, Pv, Battery, Other]

  /** How many charges go to the categories `cats`, counted list by list. */
  function CountIn(cs: seq<Charge>, cats: seq<Category>): nat {
    if |cats| == 0 then 0 else |CostsOf(cs, cats[0])| + CountIn(cs, cats[1..])
  }

  lemma {:induction false} CountInNothing(cs: seq<Charge>, cats: seq<Category>)
    requires |cs| == 0
    ensures CountIn(cs, cats) == 0
    decreases |cats|
  {
    if |cats| > 0 {
      CountInNothing(cs, cats[1..]);
    }
  }

  lemma {:induction false} CountInStep(cs: seq<Charge>, cats: seq<Category>)
    requires |cs| > 0
    requires forall i, j :: 0 <= i < j < |cats| ==> cats[i] != cats[j]
    ensures CountIn(cs, cats) == CountIn(cs[..|cs| - 1], cats) + if cs[|cs| - 1].category in cats then 1 else 0
    decreases |cats|
  {
    if |cats| > 0 {
      var init, c := cs[..|cs| - 1], cs[|cs| - 1].category;
      assert forall i, j :: 0 <= i < j < |cats[1..]| ==> cats[1..][i] == cats[i + 1] && cats[1..][j] == cats[j + 1];
      CountInStep(cs, cats[1..]);
      assert c in cats <==> c == cats[0] || c in cats[1..];
      assert c == cats[0] ==> c !in cats[1..];
      assert CostsOf(cs, cats[0]) == CostsOf(init, cats[0]) + if c == cats[0] then [cs[|cs| - 1].cost] else [];
      assert CountIn(cs, cats) == |CostsOf(cs, cats[0])| + CountIn(cs, cats[1..]);
      assert CountIn(init, cats) == |CostsOf(init, cats[0])| + CountIn(init, cats[1..]);
    }
  }

  lemma EveryCategoryListed(c: Category)
    ensures c in AllCategories
  {
    match c
    case Wall => assert AllCategories[0] == c;
    case Roof => assert AllCategories[1] == c;
    case Floor => assert AllCategories[2] == c;
    case Window => assert AllCategories[3] == c;
    case Door => assert AllCategories[4] == c;
    case AirSealing => assert AllCategories[5] == c;
    case Mech => assert AllCategories[6] == c;
    case Dhw => assert AllCategories[7] == c;
    case Appliances => assert AllCategories[8] == c;
    case Pv => assert AllCategories[9] == c;
    case Battery => assert AllCategories[10] == c;
    case Other => assert AllCategories[11] == c;
  }

  /** No category is listed twice. */
  lemma AllCategoriesDistinct()
    ensures forall i, j :: 0 <= i < j < |AllCategories| ==> AllCategories[i] != AllCategories[j]
  {
    var a := AllCategories;
    assert forall i :: 0 <= i < |a| ==> Rank(a[i]) == i;
  }

  /** The position of a category in the summary. */
  function Rank(c: Category): nat {
    match c
    case Wall => 0 case Roof => 1 case Floor => 2 case Window => 3 case Door => 4 case AirSealing => 5
    case Mech => 6 case Dhw => 7 case Appliances => 8 case Pv => 9 case Battery => 10 case Other => 11
  }

  /** The categories partition the line items: each item is charged to exactly one of
      them, so the category lists together hold every item once. */
  lemma {:induction false} CategoriesPartition(cs: seq<Charge>)
    ensures CountIn(cs, AllCategories) == |cs|
  {
    if |cs| == 0 {
      CountInNothing(cs, AllCategories);
    } else {
      CategoriesPartition(cs[..|cs| - 1]);
      AllCategoriesDistinct();
      CountInStep(cs, AllCategories);
      EveryCategoryListed(cs[|cs| - 1].category);
    }
  }

  /** A case whose batch or case name contains "BASE" reports zero for every cost,
      whatever its line items. */
  lemma BaseCaseCostsNothing(batchName: string, caseName: string, firstCost: real, items: seq<LineItem>)
    requires Contains(batchName, "BASE") || Contains(caseName, "BASE")
    ensures Summary(BaseFileName(batchName, caseName), firstCost, items) == Ok(ZeroCosts)
  {
    BaseCaseNamed(batchName, caseName);
  }

  /** A category has a last charge exactly when some item is charged to it, and that
      charge is the last such item's cost. */
  lemma LastCharge(items: seq<LineItem>, c: Category)
    ensures LastOf(Charges(items), c).Some? <==> exists i :: 0 <= i < |items| && CategoryOf(items[i].name) == c
    ensures LastOf(Charges(items), c).Some? ==>
            exists i :: 0 <= i < |items| && CategoryOf(items[i].name) == c && LastOf(Charges(items), c).value == items[i].cost &&
                        forall j :: i < j < |items| ==> CategoryOf(items[j].name) != c
  {
    var cs := Charges(items);
    if LastOf(cs, c).Some? {
      var i :| 0 <= i < |cs| && cs[i] == Charge(c, LastOf(cs, c).value) &&
               forall j :: i < j < |cs| ==> cs[j].category != c;
      assert CategoryOf(items[i].name) == c;
      assert forall j :: i < j < |items| ==> cs[j].category == CategoryOf(items[j].name);
    } else {
      assert forall i :: 0 <= i < |items| ==> cs[i].category == CategoryOf(items[i].name);
    }
  }

  /** Outside a base case the pass succeeds exactly when some item is a PV cost and
      some item a battery cost; the totals are then the sums of the category lists
      (`CostsOfAppend` says what they hold), and the PV and battery costs are those of
      the last PV and the last battery item. */
  lemma SummaryOfOrdinaryCase(baseFileName: string, firstCost: real, items: seq<LineItem>)
    requires !Contains(baseFileName, "BASE")
    ensures Summary(baseFileName, firstCost, items).Ok? <==>
            (exists i :: 0 <= i < |items| && CategoryOf(items[i].name) == Pv) &&
            (exists i :: 0 <= i < |items| && CategoryOf(items[i].name) == Battery)
    ensures Summary(baseFileName, firstCost, items).Ok? ==>
            var s := Summary(baseFileName, firstCost, items).value;
            && s.firstCost == firstCost
            && s.wall == Sum(CostsOf(Charges(items), Wall))
            && s.roof == Sum(CostsOf(Charges(items), Roof))
            && s.floor == Sum(CostsOf(Charges(items), Floor))
            && s.window == Sum(CostsOf(Charges(items), Window))
            && s.door == Sum(CostsOf(Charges(items), Door))
            && s.airSealing == Sum(CostsOf(Charges(items), AirSealing))
            && s.mech == Sum(CostsOf(Charges(items), Mech))
            && s.dhw == Sum(CostsOf(Charges(items), Dhw))
            && s.appliances == Sum(CostsOf(Charges(items), Appliances))
            && (exists i :: 0 <= i < |items| && CategoryOf(items[i].name) == Pv && s.pv == items[i].cost &&
                            forall j :: i < j < |items| ==> CategoryOf(items[j].name) != Pv)
            && (exists i :: 0 <= i < |items| && CategoryOf(items[i].name) == Battery && s.battery == items[i].cost &&
                            forall j :: i < j < |items| ==> CategoryOf(items[j].name) != Battery)
  {
    LastCharge(items, Pv);
    LastCharge(items, Battery);
  }
}
