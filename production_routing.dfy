/** The routing expansion of `createProductionOrderItem`
    (services/productionOrder.service.js:402-436) as a specification: each
    spec's list of production types becomes a chain of items whose
    `source`/`destination` edges follow FLOW_MAP, and slitting feeds
    cutting instead of production once a spec mentioning cutting has been
    reached in the same call. The method that performs the expansion is
    `ProductionOrders.CreateProductionOrderItem`. */
module ProductionRouting {
  import opened Wrappers
  import opened ProductionStore

  /** One element of the request body: the stages wanted for one piece,
      with the columns every created item copies. */
  datatype ItemSpec = ItemSpec(
    productionTypes: seq<string>,
    width: real,
    length: real,
    quantity: Option<int>,
    notes: Option<string>)

  /** The keys of FLOW_MAP; any other type is skipped by the expansion. */
  predicate IsFlowType(t: string) {
    t == WAREHOUSE || t == SLITTING || t == CUTTING || t == GLUING
  }

  /** `FLOW_MAP[t].destination`, where slitting's entry is the one the
      expansion may overwrite. */
  function FlowDestination(t: string, slittingDestination: string): string
    requires IsFlowType(t)
  {
    if t == WAREHOUSE then SLITTING
    else if t == SLITTING then slittingDestination
    else if t == CUTTING then GLUING
    else PRODUCTION
  }

  /** The types of a list that FLOW_MAP knows, in list order. */
  function KnownTypes(ts: seq<string>): (k: seq<string>)
    ensures |k| <= |ts|
    ensures forall i :: 0 <= i < |k| ==> IsFlowType(k[i])
  {
    if ts == [] then []
    else KnownTypes(ts[..|ts| - 1]) + (if IsFlowType(ts[|ts| - 1]) then [ts[|ts| - 1]] else [])
  }

  /** `currentSource` once the inner loop has walked `ts`. */
  function SourceAfter(ts: seq<string>): string {
    if ts == [] then PRODUCTION
    else if IsFlowType(ts[|ts| - 1]) then ts[|ts| - 1]
    else SourceAfter(ts[..|ts| - 1])
  }

  /** The item the expansion creates for stage `t` of `spec`. */
  function Draft(spec: ItemSpec, t: string, source: string, destination: string): ItemFields {
    ItemFields(t, source, destination, PENDING, spec.width, spec.length, spec.quantity, spec.notes)
  }

  /** The items created for the types `ts` of `spec` while slitting's
      destination is `slittingDestination`. */
  function SpecDrafts(spec: ItemSpec, ts: seq<string>, slittingDestination: string): seq<ItemFields> {
    if ts == [] then []
    else
      var prev, t := ts[..|ts| - 1], ts[|ts| - 1];
      SpecDrafts(spec, prev, slittingDestination)
      + (if IsFlowType(t)
         then [Draft(spec, t, if t == WAREHOUSE then WAREHOUSE else SourceAfter(prev), FlowDestination(t, slittingDestination))]
         else [])
  }

  /** Whether some spec in `specs` lists cutting. */
  predicate MentionsCutting(specs: seq<ItemSpec>) {
    specs != [] && (MentionsCutting(specs[..|specs| - 1]) || CUTTING in specs[|specs| - 1].productionTypes)
  }

  /** Slitting's destination while the last spec of `specs` is expanded. */
  function SlittingDestination(specs: seq<ItemSpec>): string {
    if MentionsCutting(specs) then CUTTING else PRODUCTION
  }

  /** Every item one call creates, in creation order. */
  function Routing(specs: seq<ItemSpec>): seq<ItemFields> {
    if specs == [] then []
    else
      var last := specs[|specs| - 1];
      Routing(specs[..|specs| - 1]) + SpecDrafts(last, last.productionTypes, SlittingDestination(specs))
  }

  /** One more type in the inner loop: the chain grows by that type's item
      when FLOW_MAP knows it, and the source moves on to it. */
  lemma SpecDraftsSnoc(spec: ItemSpec, types: seq<string>, j: nat, d: string)
    requires j < |types|
    ensures SpecDrafts(spec, types[..j + 1], d) == SpecDrafts(spec, types[..j], d)
      + (if IsFlowType(types[j])
         then [Draft(spec, types[j], if types[j] == WAREHOUSE then WAREHOUSE else SourceAfter(types[..j]), FlowDestination(types[j], d))]
         else [])
    ensures SourceAfter(types[..j + 1]) == if IsFlowType(types[j]) then types[j] else SourceAfter(types[..j])
  {
    assert types[..j + 1][..j] == types[..j];
  }

  /** One more spec in the outer loop: the override is switched on by a
      spec listing cutting, and the spec's chain is appended. */
  lemma RoutingSnoc(specs: seq<ItemSpec>, i: nat)
    requires i < |specs|
    ensures SlittingDestination(specs[..i + 1])
      == if CUTTING in specs[i].productionTypes then CUTTING else SlittingDestination(specs[..i])
    ensures Routing(specs[..i + 1])
      == Routing(specs[..i]) + SpecDrafts(specs[i], specs[i].productionTypes, SlittingDestination(specs[..i + 1]))
  {
    assert specs[..i + 1][..i] == specs[..i];
  }

  /** How many stages of all specs FLOW_MAP knows. */
  function KnownCount(specs: seq<ItemSpec>): nat {
    if specs == [] then 0
    else KnownCount(specs[..|specs| - 1]) + |KnownTypes(specs[|specs| - 1].productionTypes)|
  }

  // ---------------------------------------------------------------------
  // Shape of one spec's chain.

  lemma {:induction false} SourceAfterIsLastKnown(ts: seq<string>)
    ensures var k := KnownTypes(ts); SourceAfter(ts) == if k == [] then PRODUCTION else k[|k| - 1]
  {
    if ts != [] {
      SourceAfterIsLastKnown(ts[..|ts| - 1]);
    }
  }

  /** Item `m` of the chain `r` built for `spec` over the known types `k`:
      a warehouse item comes from the warehouse; any other item comes from
      the previous item of the chain, or from "production" when it is the
      first. Its destination is FLOW_MAP's, it is pending, and it copies
      the spec's width, length, quantity and notes. */
  predicate ChainItem(spec: ItemSpec, r: seq<ItemFields>, k: seq<string>, d: string, m: nat)
    requires m < |r| == |k|
    requires forall i :: 0 <= i < |k| ==> IsFlowType(k[i])
  {
    && r[m].productionType == k[m]
    && r[m].source == (if k[m] == WAREHOUSE then WAREHOUSE else if m == 0 then PRODUCTION else r[m - 1].productionType)
    && r[m].destination == FlowDestination(k[m], d)
    && r[m].status == PENDING
    && r[m].width == spec.width && r[m].length == spec.length
    && r[m].quantity == spec.quantity && r[m].notes == spec.notes
  }

  /** One item per known type, in list order, each as `ChainItem` says. */
  lemma {:induction false} SpecDraftsShape(spec: ItemSpec, ts: seq<string>, d: string)
    ensures |SpecDrafts(spec, ts, d)| == |KnownTypes(ts)|
    ensures forall m :: 0 <= m < |KnownTypes(ts)| ==> ChainItem(spec, SpecDrafts(spec, ts, d), KnownTypes(ts), d, m)
  {
    if ts != [] {
      var prev, t := ts[..|ts| - 1], ts[|ts| - 1];
      SpecDraftsShape(spec, prev, d);
      SourceAfterIsLastKnown(prev);
      var rp, kp := SpecDrafts(spec, prev, d), KnownTypes(prev);
      var r, k := SpecDrafts(spec, ts, d), KnownTypes(ts);
      if IsFlowType(t) {
        assert r == rp + [Draft(spec, t, if t == WAREHOUSE then WAREHOUSE else SourceAfter(prev), FlowDestination(t, d))];
        assert k == kp + [t];
        forall m | 0 <= m < |r|
          ensures ChainItem(spec, r, k, d, m)
        {
          if m < |rp| {
            assert ChainItem(spec, rp, kp, d, m);
            assert r[m] == rp[m] && k[m] == kp[m];
            if m > 0 {
              assert r[m - 1] == rp[m - 1];
            }
          } else {
            assert m == |kp| && r[m] == Draft(spec, t, if t == WAREHOUSE then WAREHOUSE else SourceAfter(prev), FlowDestination(t, d));
            if m > 0 {
              assert ChainItem(spec, rp, kp, d, m - 1);
              assert r[m - 1] == rp[m - 1];
            }
          }
        }
      } else {
        assert r == rp && k == kp;
      }
    }
  }

  // ---------------------------------------------------------------------
  // The slitting override across specs.

  /** The override is on exactly when some spec reached so far lists cutting. */
  lemma {:induction false} MentionsCuttingIff(specs: seq<ItemSpec>)
    ensures MentionsCutting(specs) <==> exists k :: 0 <= k < |specs| && CUTTING in specs[k].productionTypes
  {
    if specs != [] {
      var prev := specs[..|specs| - 1];
      MentionsCuttingIff(prev);
      if MentionsCutting(prev) {
        var k :| 0 <= k < |prev| && CUTTING in prev[k].productionTypes;
        assert specs[k] == prev[k];
      }
      if exists k :: 0 <= k < |specs| && CUTTING in specs[k].productionTypes {
        var k :| 0 <= k < |specs| && CUTTING in specs[k].productionTypes;
        if k < |prev| {
          assert prev[k] == specs[k];
        }
      }
    }
  }

  /** Once on, the override stays on for every later spec of the call. */
  lemma OverrideSticky(specs: seq<ItemSpec>, i: nat, j: nat)
    requires i <= j <= |specs|
    requires SlittingDestination(specs[..i]) == CUTTING
    ensures SlittingDestination(specs[..j]) == CUTTING
  {
    MentionsCuttingIff(specs[..i]);
    MentionsCuttingIff(specs[..j]);
    var k :| 0 <= k < i && CUTTING in specs[..i][k].productionTypes;
    assert specs[..j][k] == specs[k];
  }

  // ---------------------------------------------------------------------
  // The whole call.

  /** One item per known stage over all specs. */
  lemma {:induction false} RoutingLength(specs: seq<ItemSpec>)
    ensures |Routing(specs)| == KnownCount(specs)
  {
    if specs != [] {
      var last := specs[|specs| - 1];
      RoutingLength(specs[..|specs| - 1]);
      SpecDraftsShape(last, last.productionTypes, SlittingDestination(specs));
    }
  }

  /** Expanding more specs only appends items. */
  lemma {:induction false} RoutingExtends(specs: seq<ItemSpec>, i: nat)
    requires i <= |specs|
    ensures Routing(specs[..i]) <= Routing(specs)
  {
    if i < |specs| {
      var prev := specs[..|specs| - 1];
      assert specs[..i] == prev[..i];
      RoutingExtends(prev, i);
    } else {
      assert specs[..i] == specs;
    }
  }

  /** At least one item is created exactly when some spec lists a known stage. */
  lemma {:induction false} RoutingNonEmptyIff(specs: seq<ItemSpec>)
    ensures Routing(specs) != [] <==> exists k :: 0 <= k < |specs| && KnownTypes(specs[k].productionTypes) != []
  {
    RoutingLength(specs);
    KnownCountPositiveIff(specs);
  }

  lemma {:induction false} KnownCountPositiveIff(specs: seq<ItemSpec>)
    ensures KnownCount(specs) > 0 <==> exists k :: 0 <= k < |specs| && KnownTypes(specs[k].productionTypes) != []
  {
    if specs != [] {
      var prev := specs[..|specs| - 1];
      KnownCountPositiveIff(prev);
      if KnownCount(prev) > 0 {
        var k :| 0 <= k < |prev| && KnownTypes(prev[k].productionTypes) != [];
        assert specs[k] == prev[k];
      }
      if exists k :: 0 <= k < |specs| && KnownTypes(specs[k].productionTypes) != [] {
        var k :| 0 <= k < |specs| && KnownTypes(specs[k].productionTypes) != [];
        if k < |prev| {
          assert prev[k] == specs[k];
        }
      }
    }
  }

  // ---------------------------------------------------------------------
  // Worked cases.

  /** ["warehouse", "slitting", "cutting"] gives warehouse→slitting,
      warehouse→cutting for the slitting stage (its source is the previous
      stage, warehouse) and slitting→gluing for the cutting stage. */
  lemma ChainExample(spec: ItemSpec)
    requires spec.productionTypes == [WAREHOUSE, SLITTING, CUTTING]
    ensures Routing([spec]) == [
      Draft(spec, WAREHOUSE, WAREHOUSE, SLITTING),
      Draft(spec, SLITTING, WAREHOUSE, CUTTING),
      Draft(spec, CUTTING, SLITTING, GLUING)]
  {
    var ts := spec.productionTypes;
    assert [spec][..0] == [];
    assert MentionsCutting([spec]);
    assert ts[..2] == [WAREHOUSE, SLITTING];
    assert ts[..2][..1] == [WAREHOUSE];
    assert [WAREHOUSE][..0] == [];
    assert SourceAfter([WAREHOUSE]) == WAREHOUSE;
    assert SourceAfter([WAREHOUSE, SLITTING]) == SLITTING;
    assert SpecDrafts(spec, [], CUTTING) == [];
    var d0 := SpecDrafts(spec, [WAREHOUSE], CUTTING);
    assert d0 == [Draft(spec, WAREHOUSE, WAREHOUSE, SLITTING)];
    var d1 := SpecDrafts(spec, [WAREHOUSE, SLITTING], CUTTING);
    assert d1 == d0 + [Draft(spec, SLITTING, WAREHOUSE, CUTTING)];
    assert SpecDrafts(spec, ts, CUTTING) == d1 + [Draft(spec, CUTTING, SLITTING, GLUING)];
    assert Routing([spec]) == SpecDrafts(spec, ts, CUTTING);
  }

  /** A lone ["cutting"] comes from "production" and goes to gluing. */
  lemma CuttingOnlyExample(spec: ItemSpec)
    requires spec.productionTypes == [CUTTING]
    ensures Routing([spec]) == [Draft(spec, CUTTING, PRODUCTION, GLUING)]
  {
    assert [spec][..0] == [];
    assert spec.productionTypes[..0] == [];
    assert SpecDrafts(spec, [CUTTING], CUTTING) == [Draft(spec, CUTTING, PRODUCTION, GLUING)];
    assert MentionsCutting([spec]);
    assert Routing([spec]) == SpecDrafts(spec, [CUTTING], CUTTING);
  }

  /** A lone ["slitting"] goes from "production" to `d`, whatever slitting's
      destination is at that point of the call. */
  lemma SlittingOnlyDrafts(spec: ItemSpec, d: string)
    requires spec.productionTypes == [SLITTING]
    ensures SpecDrafts(spec, spec.productionTypes, d) == [Draft(spec, SLITTING, PRODUCTION, d)]
  {
    assert spec.productionTypes[..0] == [];
  }

  /** The override is sticky: a slitting-only spec after a spec with
      cutting sends slitting to cutting, and in the other order to production. */
  lemma StickyOverrideExample(a: ItemSpec, b: ItemSpec)
    requires a.productionTypes == [CUTTING] && b.productionTypes == [SLITTING]
    ensures Routing([a, b]) == [Draft(a, CUTTING, PRODUCTION, GLUING), Draft(b, SLITTING, PRODUCTION, CUTTING)]
    ensures Routing([b, a]) == [Draft(b, SLITTING, PRODUCTION, PRODUCTION), Draft(a, CUTTING, PRODUCTION, GLUING)]
  {
    assert [a, b][..1] == [a] && [a][..0] == [];
    assert [b, a][..1] == [b] && [b][..0] == [];
    CuttingOnlyExample(a);
    SlittingOnlyDrafts(b, CUTTING);
    SlittingOnlyDrafts(b, PRODUCTION);
    assert MentionsCutting([a, b]);
    assert !MentionsCutting([b]);
    assert MentionsCutting([b, a]);
    assert Routing([b]) == SpecDrafts(b, [SLITTING], PRODUCTION);
    assert SpecDrafts(a, [CUTTING], CUTTING) == [Draft(a, CUTTING, PRODUCTION, GLUING)] by {
      assert [CUTTING][..0] == [];
    }
  }
}
