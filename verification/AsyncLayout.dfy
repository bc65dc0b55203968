/** The layout krio-async hands to its host.

States, kinds, and which slot saves which local.
*/
module AsyncLayout {
  import opened Cfg
  import opened AsyncIr
  import opened AsyncSplit

  type Entry = (nat, LocalId)
  type Rows = seq<(BlockId, seq<Entry>)>

  datatype Layout = Layout(
    resumeEntries: seq<BlockId>, yieldBlocks: seq<(BlockId, nat)>, yieldSaves: Rows, resumeLoads: Rows,
    blockKinds: seq<(BlockId, Kind)>)

  /** What the host says is live across each site. */
  type Liveness = seq<(Site, seq<LocalId>)>

  /** The first list recorded for a site. */
  function Lookup(live: Liveness, s: Site): seq<LocalId> {
    if |live| == 0 then []
    else if live[0].0 == s then live[0].1
    else Lookup(live[1..], s)
  }

  // ── Slots ────────────────────────────────────────────────────────────

  type Slots = map<LocalId, nat>

  predicate Distinct<T(==)>(s: seq<T>) {
    forall i, j :: 0 <= i < j < |s| ==> s[i] != s[j]
  }

  /** Slots in order of first use, from `reserved` up. */
  ghost predicate SlotsFrom(slots: Slots, order: seq<LocalId>, reserved: nat) {
    && Distinct(order) && (forall v :: v in slots <==> v in order)
    && forall i :: 0 <= i < |order| ==> order[i] in slots && slots[order[i]] == (reserved + i) % U32
  }

  predicate Within(slots: Slots, slots': Slots) {
    forall v :: v in slots ==> v in slots' && slots'[v] == slots[v]
  }

  predicate HaveSlots(slots: Slots, vs: seq<LocalId>) {
    forall i :: 0 <= i < |vs| ==> vs[i] in slots
  }

  function Entries(slots: Slots, vs: seq<LocalId>): (r: seq<Entry>)
    requires HaveSlots(slots, vs)
    ensures |r| == |vs| && forall i :: 0 <= i < |r| ==> r[i] == (slots[vs[i]], vs[i])
  {
    seq(|vs|, i requires 0 <= i < |vs| => (slots[vs[i]], vs[i]))
  }

  /** One row for each site with live locals, at the block `at` names for it. */
  function RowsFor(sites: seq<Site>, live: Liveness, slots: Slots, at: seq<BlockId>, n: nat): Rows
    requires n <= |sites| == |at| && forall k :: 0 <= k < n ==> HaveSlots(slots, Lookup(live, sites[k]))
  {
    if n == 0 then []
    else
      var vs := Lookup(live, sites[n - 1]);
      RowsFor(sites, live, slots, at, n - 1) + if vs == [] then [] else [(at[n - 1], Entries(slots, vs))]
  }

  lemma {:induction false} RowsStay(sites: seq<Site>, live: Liveness, slots: Slots, slots': Slots, at: seq<BlockId>,
                                    n: nat)
    requires n <= |sites| == |at| && Within(slots, slots')
    requires forall k :: 0 <= k < n ==> HaveSlots(slots, Lookup(live, sites[k]))
    ensures forall k :: 0 <= k < n ==> HaveSlots(slots', Lookup(live, sites[k]))
    ensures RowsFor(sites, live, slots', at, n) == RowsFor(sites, live, slots, at, n)
    decreases n
  {
    if n > 0 {
      RowsStay(sites, live, slots, slots', at, n - 1);
      var vs := Lookup(live, sites[n - 1]);
      assert Entries(slots', vs) == Entries(slots, vs);
    }
  }

  /** The locals of the first `n` sites, and no others. */
  ghost predicate OrderIs(order: seq<LocalId>, sites: seq<Site>, live: Liveness, n: nat) {
    n <= |sites| && forall v :: v in order <==> exists k :: 0 <= k < n && v in Lookup(live, sites[k])
  }

  /** A slot for each live local of one site. */
  method AssignSlots(vs: seq<LocalId>, slots0: Slots, next0: nat, reserved: nat, ghost order0: seq<LocalId>)
    returns (entries: seq<Entry>, slots: Slots, next: nat, ghost order: seq<LocalId>)
    requires SlotsFrom(slots0, order0, reserved) && next0 == (reserved + |order0|) % U32
    ensures SlotsFrom(slots, order, reserved) && next == (reserved + |order|) % U32
    ensures Within(slots0, slots) && HaveSlots(slots, vs) && entries == Entries(slots, vs)
    ensures forall v :: v in order <==> v in order0 || v in vs
  {
    entries, slots, next, order := [], slots0, next0, order0;
    for i := 0 to |vs|
      invariant SlotsFrom(slots, order, reserved) && next == (reserved + |order|) % U32
      invariant Within(slots0, slots) && HaveSlots(slots, vs[..i]) && entries == Entries(slots, vs[..i])
      invariant forall v :: v in order <==> v in order0 || v in vs[..i]
    {
      var v := vs[i];
      ghost var before := slots;
      if v !in slots {
        NewSlot(slots, order, reserved, v);
        slots := slots[v := next];
        order := order + [v];
        next := (next + 1) % U32;
      }
      entries := entries + [(slots[v], v)];
      assert vs[..i + 1] == vs[..i] + [v];
      assert entries == Entries(slots, vs[..i + 1]);
    }
    assert vs[..|vs|] == vs;
  }

  lemma NewSlot(slots: Slots, order: seq<LocalId>, reserved: nat, v: LocalId)
    requires SlotsFrom(slots, order, reserved) && v !in slots
    ensures SlotsFrom(slots[v := (reserved + |order|) % U32], order + [v], reserved)
    ensures ((reserved + |order|) % U32 + 1) % U32 == (reserved + |order| + 1) % U32
  {
  }

  /** The rows of the first `n` sites, and slots for their locals. */
  ghost predicate Lifted(sites: seq<Site>, homes: seq<BlockId>, resumes: seq<BlockId>, live: Liveness,
                         saves: Rows, loads: Rows, slots: Slots, order: seq<LocalId>, n: nat) {
    && n <= |sites| == |homes| == |resumes| && OrderIs(order, sites, live, n)
    && (forall k :: 0 <= k < n ==> HaveSlots(slots, Lookup(live, sites[k])))
    && saves == RowsFor(sites, live, slots, homes, n) && loads == RowsFor(sites, live, slots, resumes, n)
  }

  /** Slots for all locals live across a site, and the save and load rows. */
  method LiftCaptures(sites: seq<Site>, homes: seq<BlockId>, resumes: seq<BlockId>, live: Liveness, reserved: nat)
    returns (saves: Rows, loads: Rows, slots: Slots, ghost order: seq<LocalId>)
    requires |sites| == |homes| == |resumes| && reserved < U32
    ensures SlotsFrom(slots, order, reserved)
            && Lifted(sites, homes, resumes, live, saves, loads, slots, order, |sites|)
  {
    hide Lifted, SlotsFrom;
    saves, loads, slots, order := [], [], map[], [];
    var next := reserved;
    NothingLifted(sites, homes, resumes, live, reserved);
    for k := 0 to |sites|
      invariant SlotsFrom(slots, order, reserved) && next == (reserved + |order|) % U32
      invariant Lifted(sites, homes, resumes, live, saves, loads, slots, order, k)
    {
      var vs := Lookup(live, sites[k]);
      ghost var slots0, order0 := slots, order;
      if |vs| > 0 {
        var entries;
        entries, slots, next, order := AssignSlots(vs, slots, next, reserved, order);
        LiftStep(sites, homes, resumes, live, saves, loads, slots0, order0, slots, order, k);
        saves := saves + [(homes[k], entries)];
        loads := loads + [(resumes[k], entries)];
      } else {
        LiftStep(sites, homes, resumes, live, saves, loads, slots0, order0, slots, order, k);
      }
    }
  }

  lemma NothingLifted(sites: seq<Site>, homes: seq<BlockId>, resumes: seq<BlockId>, live: Liveness, reserved: nat)
    requires |sites| == |homes| == |resumes| && reserved < U32
    ensures SlotsFrom(map[], [], reserved) && Lifted(sites, homes, resumes, live, [], [], map[], [], 0)
  {
  }

  lemma LiftStep(sites: seq<Site>, homes: seq<BlockId>, resumes: seq<BlockId>, live: Liveness, saves: Rows, loads: Rows,
                 slots0: Slots, order0: seq<LocalId>, slots: Slots, order: seq<LocalId>, k: nat)
    requires Lifted(sites, homes, resumes, live, saves, loads, slots0, order0, k) && k < |sites|
    requires Within(slots0, slots) && HaveSlots(slots, Lookup(live, sites[k]))
    requires forall v :: v in order <==> v in order0 || v in Lookup(live, sites[k])
    ensures var vs := Lookup(live, sites[k]); var entries := Entries(slots, vs);
            if |vs| == 0 then Lifted(sites, homes, resumes, live, saves, loads, slots, order, k + 1)
            else Lifted(sites, homes, resumes, live, saves + [(homes[k], entries)], loads + [(resumes[k], entries)],
                        slots, order, k + 1)
  {
    RowsStay(sites, live, slots0, slots, homes, k);
    RowsStay(sites, live, slots0, slots, resumes, k);
    OrderGrows(order0, order, sites, live, k);
    hide OrderIs, Within, Lookup;
  }

  lemma OrderGrows(order: seq<LocalId>, order': seq<LocalId>, sites: seq<Site>, live: Liveness, k: nat)
    requires k < |sites| && OrderIs(order, sites, live, k)
    requires forall v :: v in order' <==> v in order || v in Lookup(live, sites[k])
    ensures OrderIs(order', sites, live, k + 1)
  {
  }

  // ── The transform ────────────────────────────────────────────────────

  function Homes(cuts: seq<Cut>): (r: seq<BlockId>)
    ensures |r| == |cuts| && forall k :: 0 <= k < |r| ==> r[k] == cuts[k].home
  {
    seq(|cuts|, k requires 0 <= k < |cuts| => cuts[k].home)
  }

  function Resumes(cuts: seq<Cut>): (r: seq<BlockId>)
    ensures |r| == |cuts| && forall k :: 0 <= k < |r| ==> r[k] == cuts[k].resume
  {
    seq(|cuts|, k requires 0 <= k < |cuts| => cuts[k].resume)
  }

  /** What the transform of a suspending function comes to. */
  ghost predicate Lowered(src: Blocks, out: Blocks, live: Liveness, reserved: nat, layout: Layout,
                          sites: seq<Site>, cuts: seq<Cut>, slots: Slots, order: seq<LocalId>) {
    && AllSites(src, sites) && |cuts| == |sites| && CutsAre(cuts, sites) && Split(src, out, cuts)
    && StatesOf(src, cuts, States(layout.resumeEntries, layout.yieldBlocks, layout.blockKinds))
    && SlotsFrom(slots, order, reserved)
    && Lifted(sites, Homes(cuts), Resumes(cuts), live, layout.yieldSaves, layout.resumeLoads, slots, order, |sites|)
  }

  method Transform(body: Body<Stmt>, suspending: bool, live: Liveness, reserved: nat)
    returns (layout: Layout, ghost sites: seq<Site>, ghost cuts: seq<Cut>, ghost slots: Slots,
             ghost order: seq<LocalId>)
    requires reserved < U32 && (suspending ==> |body.blocks| > 0)
    modifies body`blocks
    ensures !suspending ==> body.blocks == old(body.blocks) && layout == Layout([], [], [], [], [])
    ensures suspending ==> Lowered(old(body.blocks), body.blocks, live, reserved, layout, sites, cuts, slots, order)
    ensures suspending ==> KindsTell(old(body.blocks), cuts, layout.blockKinds)
  {
    hide AllSites, Split, StatesOf, SlotsFrom, CutsAre, Lifted, KindsTell;
    if !suspending {
      layout := Layout([], [], [], [], []);
      sites, cuts, slots, order := [], [], map[], [];
      return;
    }
    var found := FindSites(body.blocks);
    var st, homes, resumes;
    st, homes, resumes, cuts := SplitAtSites(body, found);
    var saves, loads, given;
    saves, loads, given, order := LiftCaptures(found, homes, resumes, live, reserved);
    assert homes == Homes(cuts) && resumes == Resumes(cuts);
    layout := Layout(st.resumeEntries, st.yieldBlocks, saves, loads, st.blockKinds);
    sites, slots := found, given;
  }
}
