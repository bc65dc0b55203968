/** Guards that are shut. */
module Guards {
  // What running a coroutine does to the channels others wait for.

  import opened Cfg
  import opened Coroutines
  import opened Regions

  /** Readiness of channels changes by channel operations only. */
  ghost predicate ChannelsOnly<U(!new)>(sem: Sem<U>) {
    && (forall ch, id, u :: sem.ready(ch, sem.exec(id, u)) == sem.ready(ch, u))
    && (forall ch, l, v, u :: sem.ready(ch, sem.write(l, v, u)) == sem.ready(ch, u))
  }

  /** Every recv of the source is guarded. */
  ghost predicate NoBareRecv(src: Blocks) {
    forall b, i :: 0 <= b < |src| && 0 <= i < |src[b].stmts| ==> !src[b].stmts[i].Recv?
  }

  ghost predicate SameReady<U>(sem: Sem<U>, u: U, u': U) {
    forall ch :: sem.ready(ch, u') == sem.ready(ch, u)
  }

  ghost predicate AtClosedGuard<U>(sem: Sem<U>, src: Blocks, p: Pos, u: U) {
    && p.At? && p.b < |src| && p.k < |src[p.b].stmts|
    && src[p.b].stmts[p.k].GuardedRecv? && !sem.ready(src[p.b].stmts[p.k].chan, u)
  }

  lemma {:induction false} QuietDoAll<U(!new)>(sem: Sem<U>, stmts: seq<Stmt>, w: World<U>)
    requires ChannelsOnly(sem)
    requires forall i :: 0 <= i < |stmts| ==> !Suspends(stmts[i]) && !stmts[i].Recv?
    ensures SameReady(sem, w.u, DoAll(sem, stmts, w).u)
  {
    if |stmts| > 0 {
      assert SameReady(sem, w.u, Do(sem, stmts[0], w).u);
      QuietDoAll(sem, stmts[1..], Do(sem, stmts[0], w));
    }
  }

  /** A stretch of a poll that passes no guard opens none. */
  lemma RunFromQuiet<U(!new), S>(sem: Sem<U>, src: Blocks, co: Coroutine, r: Ref<U, S>, j: nat, b: BlockId, k: nat)
    requires ChannelsOnly(sem) && NoBareRecv(src)
    requires b < |src| && k <= |src[b].stmts| && j < |r.pos|
    ensures var r' := RunFrom(sem, src, co, r, j, b, k);
            && (r.progress ==> r'.progress)
            && (!r'.progress && !(r'.ctl.Polled? && r'.ctl.res.Yielded?) ==> SameReady(sem, r.w.u, r'.w.u))
            && (!r'.progress && r'.ctl.Polled? && r'.ctl.res.Blocked? ==> AtClosedGuard(sem, src, r'.pos[j], r'.w.u))
  {
    var stmts := src[b].stmts;
    var s := NextSite(stmts, k);
    QuietDoAll(sem, stmts[k..s], r.w);
    if s == |stmts| {
      assert stmts[k..s] == stmts[k..];
    }
    hide DoAll, Do;
  }

  lemma ShutRunFrom<U, S>(sem: Sem<U>, src: Blocks, co: Coroutine, r: Ref<U, S>, j: nat, b: BlockId, k: nat)
    requires j < |r.pos| && r.pos[j] == At(b, k) && AtClosedGuard(sem, src, r.pos[j], r.w.u)
    ensures b < |src| && k <= |src[b].stmts|
    ensures RunFrom(sem, src, co, r, j, b, k) == r.(ctl := Polled(j, Blocked))
  {
    assert NextSite(src[b].stmts, k) == k && src[b].stmts[k..k] == [];
    assert r.pos[j := At(b, k)] == r.pos;
  }

  /** Every coroutine that has not ended stands at a shut guard, and some have not ended. */
  ghost predicate Stuck<U>(sem: Sem<U>, src: Blocks, pos: seq<Pos>, u: U) {
    && (forall i :: 0 <= i < |pos| ==> pos[i].Done? || AtClosedGuard(sem, src, pos[i], u))
    && (exists i :: 0 <= i < |pos| && !pos[i].Done?)
  }
}
