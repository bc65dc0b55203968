/** Auditing a layout, and what the audit says of the transform's own.

The checks are made in the order of the source, and each error carries what it found.
*/
module Validate {
  import opened Options
  import opened Cfg
  import opened AsyncIr
  import opened AsyncSplit
  import opened AsyncLayout
  import opened AsyncRuns

  datatype LayoutError =
    | SaveWithoutLoad(slot: nat)
    | LoadWithoutSave(slot: nat)
    | DuplicateSaveSlot(block: BlockId, slot: nat)
    | DuplicateLoadSlot(block: BlockId, slot: nat)
    | EntryCountMismatch(resumeEntries: nat, yieldBlocks: nat)
    | SlotOutOfRange(slot: nat, nextSlot: nat)

  // ── What a valid layout is ───────────────────────────────────────────

  ghost predicate NoRepeats(es: seq<Entry>) {
    forall i, j :: 0 <= i < j < |es| ==> es[i].0 != es[j].0
  }

  ghost predicate Below(es: seq<Entry>, n: nat) {
    forall i :: 0 <= i < |es| ==> es[i].0 < n
  }

  ghost predicate RowsValid(rows: Rows, n: nat) {
    forall r :: 0 <= r < |rows| ==> NoRepeats(rows[r].1) && Below(rows[r].1, n)
  }

  ghost predicate InEntries(es: seq<Entry>, slot: nat) {
    exists i :: 0 <= i < |es| && es[i].0 == slot
  }

  ghost predicate Mentions(rows: Rows, slot: nat) {
    exists r :: 0 <= r < |rows| && InEntries(rows[r].1, slot)
  }

  ghost predicate CountsMatch(layout: Layout) {
    |layout.resumeEntries| == |layout.yieldBlocks| + 1
  }

  ghost predicate Valid(layout: Layout, n: nat) {
    && CountsMatch(layout) && RowsValid(layout.yieldSaves, n) && RowsValid(layout.resumeLoads, n)
    && forall slot: nat :: Mentions(layout.yieldSaves, slot) <==> Mentions(layout.resumeLoads, slot)
  }

  /** Some row of `block` has `slot` twice. */
  ghost predicate Repeats(rows: Rows, block: BlockId, slot: nat) {
    exists r, i, j :: 0 <= r < |rows| && rows[r].0 == block && 0 <= i < j < |rows[r].1| && rows[r].1[i].0 == slot
      && rows[r].1[j].0 == slot
  }

  /** What an error says is so, and what it says of the checks before it. */
  ghost predicate Justified(layout: Layout, n: nat, e: LayoutError) {
    match e
    case EntryCountMismatch(a, b) => a == |layout.resumeEntries| && b == |layout.yieldBlocks| && !CountsMatch(layout)
    case DuplicateSaveSlot(block, slot) => CountsMatch(layout) && Repeats(layout.yieldSaves, block, slot)
    case DuplicateLoadSlot(block, slot) =>
      CountsMatch(layout) && RowsValid(layout.yieldSaves, n) && Repeats(layout.resumeLoads, block, slot)
    case SlotOutOfRange(slot, m) =>
      CountsMatch(layout) && m == n <= slot && (Mentions(layout.yieldSaves, slot) || Mentions(layout.resumeLoads, slot))
    case SaveWithoutLoad(slot) =>
      && CountsMatch(layout) && RowsValid(layout.yieldSaves, n) && RowsValid(layout.resumeLoads, n)
      && Mentions(layout.yieldSaves, slot) && !Mentions(layout.resumeLoads, slot)
      && forall s: nat :: s < slot && Mentions(layout.yieldSaves, s) ==> Mentions(layout.resumeLoads, s)
    case LoadWithoutSave(slot) =>
      && CountsMatch(layout) && RowsValid(layout.yieldSaves, n) && RowsValid(layout.resumeLoads, n)
      && Mentions(layout.resumeLoads, slot) && !Mentions(layout.yieldSaves, slot)
      && (forall s: nat :: Mentions(layout.yieldSaves, s) ==> Mentions(layout.resumeLoads, s))
      && forall s: nat :: s < slot && Mentions(layout.resumeLoads, s) ==> Mentions(layout.yieldSaves, s)
  }

  // ── The audit ────────────────────────────────────────────────────────

  datatype Flaw = Twice(block: BlockId, slot: nat) | TooHigh(slot: nat)

  ghost predicate FlawIs(rows: Rows, n: nat, f: Flaw) {
    match f
    case Twice(block, slot) => Repeats(rows, block, slot)
    case TooHigh(slot) => n <= slot && Mentions(rows, slot)
  }

  /** The first flaw of the rows: a slot seen before in its block, or one out of range. */
  method AuditRows(rows: Rows, n: nat) returns (flaw: Option<Flaw>)
    ensures flaw.None? <==> RowsValid(rows, n)
    ensures flaw.Some? ==> FlawIs(rows, n, flaw.value)
  {
    for r := 0 to |rows|
      invariant RowsValid(rows[..r], n)
    {
      var (block, es) := rows[r];
      var seen: set<nat> := {};
      for i := 0 to |es|
        invariant forall s: nat :: s in seen <==> exists j :: 0 <= j < i && es[j].0 == s
        invariant NoRepeats(es[..i]) && Below(es[..i], n)
      {
        var slot := es[i].0;
        if slot in seen {
          assert Repeats(rows, block, slot);
          assert !NoRepeats(rows[r].1);
          return Some(Twice(block, slot));
        }
        seen := seen + {slot};
        if slot >= n {
          assert InEntries(rows[r].1, slot);
          assert Mentions(rows, slot) && !Below(rows[r].1, n);
          return Some(TooHigh(slot));
        }
      }
      assert es[..|es|] == es;
      assert rows[..r + 1] == rows[..r] + [rows[r]];
    }
    assert rows[..|rows|] == rows;
    return None;
  }

  /** All slots of the rows. */
  method SlotsIn(rows: Rows) returns (slots: set<nat>)
    ensures forall s: nat :: s in slots <==> Mentions(rows, s)
  {
    slots := {};
    for r := 0 to |rows|
      invariant forall s: nat :: s in slots <==> Mentions(rows[..r], s)
    {
      var es := rows[r].1;
      ghost var before := slots;
      for i := 0 to |es|
        invariant forall s: nat :: s in slots <==> s in before || InEntries(es[..i], s)
      {
        slots := slots + {es[i].0};
        OneMoreEntry(es, i);
      }
      assert es[..|es|] == es;
      MentionsGrow(rows, r);
    }
    assert rows[..|rows|] == rows;
  }

  lemma OneMoreEntry(es: seq<Entry>, i: nat)
    requires i < |es|
    ensures forall s: nat :: InEntries(es[..i + 1], s) <==> InEntries(es[..i], s) || es[i].0 == s
  {
    var less, more := es[..i], es[..i + 1];
    forall s: nat
      ensures InEntries(more, s) <==> InEntries(less, s) || es[i].0 == s
    {
      if j :| 0 <= j < |less| && less[j].0 == s {
        assert more[j].0 == s;
      }
      if es[i].0 == s {
        assert more[i].0 == s;
      }
      if j :| 0 <= j < |more| && more[j].0 == s {
        assert j < i ==> less[j].0 == s;
      }
    }
  }

  lemma MentionsGrow(rows: Rows, r: nat)
    requires r < |rows|
    ensures forall s: nat :: Mentions(rows[..r + 1], s) <==> Mentions(rows[..r], s) || InEntries(rows[r].1, s)
  {
    hide InEntries;
    var less, more := rows[..r], rows[..r + 1];
    forall s: nat
      ensures Mentions(more, s) <==> Mentions(less, s) || InEntries(rows[r].1, s)
    {
      if q :| 0 <= q < |less| && InEntries(less[q].1, s) {
        assert InEntries(more[q].1, s);
      }
      if InEntries(rows[r].1, s) {
        assert InEntries(more[r].1, s);
      }
      if q :| 0 <= q < |more| && InEntries(more[q].1, s) {
        assert q < r ==> InEntries(less[q].1, s);
      }
    }
  }

  /** The smallest key of `a` that is not one of `b`, keys being visited in ascending order. */
  method FirstMissing(a: set<nat>, b: set<nat>) returns (slot: Option<nat>)
    ensures slot.None? <==> forall s: nat :: s in a ==> s in b
    ensures slot.Some? ==> slot.value in a && slot.value !in b && forall s: nat :: s in a && s < slot.value ==> s in b
  {
    var rest := a - b;
    if rest == {} {
      assert forall s: nat :: s in a && s !in b ==> s in rest;
      return None;
    }
    var least :| least in rest;
    rest := rest - {least};
    while rest != {}
      invariant least in a && least !in b && rest <= a - b
      invariant forall s: nat :: s in a && s !in b && s !in rest ==> least <= s
      decreases |rest|
    {
      var s :| s in rest;
      if s < least {
        least := s;
      }
      rest := rest - {s};
    }
    return Some(least);
  }

  /** Accepts exactly the valid layouts, and every error is justified. */
  method ValidateLayout(layout: Layout, n: nat) returns (error: Option<LayoutError>)
    ensures error.None? <==> Valid(layout, n)
    ensures error.Some? ==> Justified(layout, n, error.value)
  {
    if |layout.resumeEntries| != |layout.yieldBlocks| + 1 {
      return Some(EntryCountMismatch(|layout.resumeEntries|, |layout.yieldBlocks|));
    }
    var saveFlaw := AuditRows(layout.yieldSaves, n);
    if saveFlaw.Some? {
      match saveFlaw.value {
        case Twice(block, slot) => return Some(DuplicateSaveSlot(block, slot));
        case TooHigh(slot) => return Some(SlotOutOfRange(slot, n));
      }
    }
    var loadFlaw := AuditRows(layout.resumeLoads, n);
    if loadFlaw.Some? {
      match loadFlaw.value {
        case Twice(block, slot) => return Some(DuplicateLoadSlot(block, slot));
        case TooHigh(slot) => return Some(SlotOutOfRange(slot, n));
      }
    }
    hide Mentions, RowsValid, Repeats;
    var saved := SlotsIn(layout.yieldSaves);
    var loaded := SlotsIn(layout.resumeLoads);
    var dead := FirstMissing(saved, loaded);
    if dead.Some? {
      return Some(SaveWithoutLoad(dead.value));
    }
    var garbage := FirstMissing(loaded, saved);
    if garbage.Some? {
      return Some(LoadWithoutSave(garbage.value));
    }
    return None;
  }

  // ── The transform's own layout ───────────────────────────────────────

  /** The host's lists name no local twice. */
  ghost predicate ListsDistinct(x: Lowering) {
    forall k :: 0 <= k < |x.sites| ==> Distinct(Lookup(x.live, x.sites[k]))
  }

  lemma EntriesValid(slots: Slots, vs: seq<LocalId>, n: nat)
    requires HaveSlots(slots, vs) && OneToOne(slots) && forall v :: v in slots ==> slots[v] < n
    ensures Below(Entries(slots, vs), n) && (NoRepeats(Entries(slots, vs)) <==> Distinct(vs))
  {
    var es := Entries(slots, vs);
    if NoRepeats(es) {
      forall i, j | 0 <= i < j < |vs|
        ensures vs[i] != vs[j]
      {
        assert es[i].0 != es[j].0;
      }
    }
    if Distinct(vs) {
      forall i, j | 0 <= i < j < |es|
        ensures es[i].0 != es[j].0
      {
        assert vs[i] != vs[j] && vs[i] in slots && vs[j] in slots;
      }
    }
  }

  /** `slot` is the slot of one of `vs`. */
  ghost predicate SlotOfOne(slots: Slots, vs: seq<LocalId>, slot: nat) {
    exists v :: v in vs && v in slots && slots[v] == slot
  }

  /** Rows are valid when their lists are, and mention the slots of their locals. */
  lemma {:induction false} RowsForValid(sites: seq<Site>, live: Liveness, slots: Slots, at: seq<BlockId>, m: nat,
                                        n: nat)
    requires m <= |sites| == |at| && forall k :: 0 <= k < m ==> HaveSlots(slots, Lookup(live, sites[k]))
    requires OneToOne(slots) && forall v :: v in slots ==> slots[v] < n
    ensures RowsValid(RowsFor(sites, live, slots, at, m), n) <==> forall k :: 0 <= k < m ==>
              Distinct(Lookup(live, sites[k]))
    ensures forall s: nat :: Mentions(RowsFor(sites, live, slots, at, m), s)
              <==> exists k :: 0 <= k < m && SlotOfOne(slots, Lookup(live, sites[k]), s)
    decreases m
  {
    hide RowsValid, NoRepeats, Below, Mentions, Lookup, OneToOne, SlotOfOne, Distinct;
    if m == 0 {
      NoRows(n);
    } else {
      RowsForValid(sites, live, slots, at, m - 1, n);
      var vs := Lookup(live, sites[m - 1]);
      var rows, all := RowsFor(sites, live, slots, at, m - 1), RowsFor(sites, live, slots, at, m);
      EntriesValid(slots, vs, n);
      if vs == [] {
        NoLocals(slots);
        assert all == rows;
      } else {
        var row: (BlockId, seq<Entry>) := (at[m - 1], Entries(slots, vs));
        assert all == rows + [row];
        OneMoreRow(rows, row, n);
        EntriesMention(slots, vs);
      }
    }
  }

  lemma NoRows(n: nat)
    ensures RowsValid([], n) && forall s: nat :: !Mentions([], s)
  {
  }

  lemma NoLocals(slots: Slots)
    ensures Distinct<LocalId>([]) && forall s: nat :: !SlotOfOne(slots, [], s)
  {
  }

  lemma EntriesMention(slots: Slots, vs: seq<LocalId>)
    requires HaveSlots(slots, vs)
    ensures forall s: nat :: InEntries(Entries(slots, vs), s) <==> SlotOfOne(slots, vs, s)
  {
    forall s: nat
      ensures InEntries(Entries(slots, vs), s) <==> SlotOfOne(slots, vs, s)
    {
      if v :| v in vs && v in slots && slots[v] == s {
        var i :| 0 <= i < |vs| && vs[i] == v;
        assert Entries(slots, vs)[i].0 == s;
      }
      if i :| 0 <= i < |Entries(slots, vs)| && Entries(slots, vs)[i].0 == s {
        assert vs[i] in vs;
      }
    }
  }

  lemma OneMoreRow(rows: Rows, row: (BlockId, seq<Entry>), n: nat)
    ensures RowsValid(rows + [row], n) <==> RowsValid(rows, n) && NoRepeats(row.1) && Below(row.1, n)
    ensures forall s: nat :: Mentions(rows + [row], s) <==> Mentions(rows, s) || InEntries(row.1, s)
  {
    hide NoRepeats, Below, InEntries;
    var all := rows + [row];
    if RowsValid(all, n) {
      assert all[|rows|] == row;
      forall r | 0 <= r < |rows|
        ensures NoRepeats(rows[r].1) && Below(rows[r].1, n)
      {
        assert all[r] == rows[r];
      }
    }
    assert all[..|rows|] == rows && all[..|rows| + 1] == all;
    MentionsGrow(all, |rows|);
  }

  ghost predicate IsSlot(slots: Slots, slot: nat) {
    exists v :: v in slots && slots[v] == slot
  }

  lemma SlotsBelow(slots: Slots, order: seq<LocalId>, reserved: nat, slot: nat)
    requires SlotsFrom(slots, order, reserved) && reserved + |order| < U32
    ensures IsSlot(slots, slot) <==> reserved <= slot < reserved + |order|
  {
    if reserved <= slot < reserved + |order| {
      var i := slot - reserved;
      SlotOfNth(slots, order, reserved, i);
      hide SlotsFrom;
      assert slots[order[i]] == slot;
    }
    if IsSlot(slots, slot) {
      hide SlotsFrom;
      var v :| v in slots && slots[v] == slot;
      SlotIsNth(slots, order, reserved, v);
    }
  }

  lemma SlotOfNth(slots: Slots, order: seq<LocalId>, reserved: nat, i: nat)
    requires SlotsFrom(slots, order, reserved) && reserved + |order| < U32 && i < |order|
    ensures order[i] in slots && slots[order[i]] == reserved + i
  {
  }

  lemma SlotIsNth(slots: Slots, order: seq<LocalId>, reserved: nat, v: LocalId)
    requires SlotsFrom(slots, order, reserved) && reserved + |order| < U32 && v in slots
    ensures reserved <= slots[v] < reserved + |order|
  {
    var i :| 0 <= i < |order| && order[i] == v;
    SlotOfNth(slots, order, reserved, i);
    hide SlotsFrom;
  }

  /** Slots fill exactly the range the transform allocated, one local each. */
  lemma SlotsFill(slots: Slots, order: seq<LocalId>, reserved: nat)
    requires SlotsFrom(slots, order, reserved) && reserved + |order| < U32
    ensures OneToOne(slots) && |slots| == |order|
    ensures forall s: nat :: IsSlot(slots, s) <==> reserved <= s < reserved + |order|
  {
    SlotsAreApart(slots, order, reserved);
    KeysAreOrder(slots, order);
    hide SlotsFrom, IsSlot;
    forall s: nat
      ensures IsSlot(slots, s) <==> reserved <= s < reserved + |order|
    {
      SlotsBelow(slots, order, reserved, s);
    }
  }

  lemma {:induction false} KeysAreOrder(slots: Slots, order: seq<LocalId>)
    requires Distinct(order) && forall v :: v in slots <==> v in order
    ensures |slots| == |order|
  {
    if |order| == 0 {
      assert slots == map[];
    } else {
      var n := |order| - 1;
      var v, rest := order[n], slots - {order[n]};
      assert forall u :: u in order <==> u in order[..n] || u == v;
      KeysAreOrder(rest, order[..n]);
      assert slots.Keys == rest.Keys + {v};
    }
  }

  /** The transform's layout passes its audit exactly when the host's lists name no local twice. */
  lemma OwnLayoutPasses(x: Lowering)
    requires IsLowered(x) && x.reserved + |x.order| < U32
    ensures Valid(x.layout, x.reserved + |x.order|) <==> ListsDistinct(x)
  {
    hide AllSites, Split, StatesOf, RowsFor, SlotsFrom, OrderIs, RowsValid, Mentions, Kinds, SlotOfOne, Lookup, IsSlot;
    var n := x.reserved + |x.order|;
    SlotsFill(x.slots, x.order, x.reserved);
    forall v | v in x.slots
      ensures x.slots[v] < n
    {
      ThisIsSlot(x.slots, v);
    }
    CountsAgree(x);
    RowsForValid(x.sites, x.live, x.slots, Homes(x.cuts), |x.sites|, n);
    RowsForValid(x.sites, x.live, x.slots, Resumes(x.cuts), |x.sites|, n);
  }

  lemma ThisIsSlot(slots: Slots, v: LocalId)
    requires v in slots
    ensures IsSlot(slots, slots[v])
  {
  }

  lemma CountsAgree(x: Lowering)
    requires IsLowered(x)
    ensures CountsMatch(x.layout)
  {
    hide AllSites, Split, Lifted, SlotsFrom, Kinds;
  }

  /** The layout of a function that cannot suspend is empty, and the audit rejects it. */
  lemma EmptyLayoutFails(n: nat)
    ensures !Valid(Layout([], [], [], [], []), n)
  {
  }
}
