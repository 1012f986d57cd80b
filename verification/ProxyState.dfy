/**
 The proxy's mutex-guarded state and the critical sections that change it, one method each.
 The ghost fields count what is in flight between sections; every method is one step of ProxyMachine.
 */
module ProxyState {
  import opened Prelude
  import opened ProxyMachine

  /** The active invocation as it is stored: a batch owns its stream's sender and its join handle. */
  datatype Invocation =
    | NoInvocation
    | PassThroughInvocation(requestId: Id, body: Bytes, delivered: bool)
    | BatchInvocation(queue: seq<Virtual>, inflight: set<Id>, streamTx: bool, streamJoin: bool)
    | Finalizing

  datatype Taken = NothingYet | Invoke(id: Id, body: Bytes) | BadHeader

  datatype Outcome = ForwardToUpstream | HandledLocally(finalizeJoin: bool)

  class ProxyInner {
    const cfg: Config
    var fetchingOuter: bool
    var active: Invocation
    ghost var fetches: nat
    ghost var forwards: multiset<nat>
    ghost var finalizers: nat
    ghost var epoch: nat
    ghost var outer: Outer

    ghost predicate Valid()
      reads this
    {
      active.BatchInvocation? ==> active.streamTx && active.streamJoin
    }

    ghost function View(): State
      reads this
    {
      State(fetchingOuter,
            match active
            case NoInvocation => Idle
            case PassThroughInvocation(id, _, delivered) => PassThrough(id, delivered)
            case BatchInvocation(queue, inflight, _, _) => KhoneBatch(queue, inflight)
            case Finalizing => KhoneFinalizing,
            fetches, forwards, finalizers, epoch, outer)
    }

    constructor (cfg: Config)
      ensures Valid() && View() == INIT && this.cfg == cfg
    {
      this.cfg := cfg;
      fetchingOuter, active := false, NoInvocation;
      epoch, fetches, forwards, finalizers, outer := 0, 0, multiset{}, 0, Outer([], [], [], 1);
    }

    /** try_take_next: hand out the pass-through once, or the next request of the batch. */
    method TryTakeNext() returns (taken: Taken)
      requires Valid()
      modifies this
      ensures Valid() && View() == Apply(cfg, old(View()), TakeNext)
      ensures taken == match old(active)
                       case PassThroughInvocation(id, body, delivered) =>
                         if delivered then NothingYet else Invoke(id, body)
                       case BatchInvocation(queue, _, _, _) =>
                         if queue == [] then NothingYet
                         else if cfg.headerOk(queue[0].id) then Invoke(queue[0].id, queue[0].event) else BadHeader
                       case _ => NothingYet
      ensures taken.Invoke? && View().active.KhoneBatch? ==>
        outer.delivered == old(outer.delivered) + [taken.id]
      ensures taken.NothingYet? ==> View() == old(View())
    {
      match active {
        case PassThroughInvocation(id, body, delivered) =>
          if delivered { return NothingYet; }
          active := PassThroughInvocation(id, body, true);
          return Invoke(id, body);
        case BatchInvocation(queue, inflight, tx, join) =>
          if queue == [] { return NothingYet; }
          var inv := queue[0];
          active := BatchInvocation(queue[1..], inflight + {inv.id}, tx, join);
          if !cfg.headerOk(inv.id) {
            assert outer.delivered + [] == outer.delivered;
            return BadHeader;
          }
          outer := outer.(delivered := outer.delivered + [inv.id]);
          return Invoke(inv.id, inv.event);
        case _ => return NothingYet;
      }
    }

    /** The section that decides who fetches: only one caller, and only when nothing is active. */
    method ShouldFetch() returns (fetch: bool)
      requires Valid()
      modifies this
      ensures Valid() && View() == Apply(cfg, old(View()), BeginFetch)
      ensures fetch <==> fetches == old(fetches) + 1
    {
      fetch := false;
      if active.NoInvocation? {
        fetch := !fetchingOuter;
        fetchingOuter := true;
        if fetch { fetches := fetches + 1; }
      }
    }

    method InstallBatch(virtuals: seq<Virtual>)
      requires Valid() && Enabled(View(), FetchedBatch(virtuals))
      modifies this
      ensures Valid() && View() == Apply(cfg, old(View()), FetchedBatch(virtuals))
    {
      fetchingOuter := false;
      fetches := fetches - 1;
      epoch := epoch + 1;
      active := BatchInvocation(virtuals, {}, true, true);
      outer := Outer(virtuals, [], [], 0);
    }

    method InstallPassThrough(id: Id, body: Bytes)
      requires Valid() && Enabled(View(), FetchedPassThrough(id))
      modifies this
      ensures Valid() && View() == Apply(cfg, old(View()), FetchedPassThrough(id))
    {
      fetchingOuter := false;
      fetches := fetches - 1;
      epoch := epoch + 1;
      active := PassThroughInvocation(id, body, false);
    }

    /** The fetch failed, or what it brought was rejected with an outer error. */
    method GiveUpFetch()
      requires Valid() && Enabled(View(), FetchFailed)
      modifies this
      ensures Valid() && View() == Apply(cfg, old(View()), FetchFailed)
    {
      fetchingOuter := false;
      fetches := fetches - 1;
    }

    /** handle_completion_inner, and the finalize task it may spawn. */
    method HandleCompletion(id: Id, kind: Completion) returns (outcome: Outcome)
      requires Valid()
      modifies this
      ensures Valid() && View() == Apply(cfg, old(View()), Complete(id, kind))
      ensures outcome.ForwardToUpstream? <==> forwards == old(forwards) + multiset{epoch}
      ensures outcome == HandledLocally(true) <==> finalizers == old(finalizers) + 1
      ensures if old(active).BatchInvocation? && id in old(active).inflight then
                && |outer.sent| == |old(outer).sent| + 1 && outer.sent[..|old(outer).sent|] == old(outer).sent
                && var last := outer.sent[|old(outer).sent|];
                   last.id == id && HoldsCompletion(cfg.parseAnswer, last, kind)
              else outer == old(outer)
    {
      match active {
        case PassThroughInvocation(requestId, _, _) =>
          if id != requestId { return HandledLocally(false); }
          forwards := forwards + multiset{epoch};
          return ForwardToUpstream;
        case BatchInvocation(queue, inflight, tx, join) =>
          if id !in inflight { return HandledLocally(false); }
          var left := inflight - {id};
          if tx {
            outer := outer.(sent := outer.sent + [cfg.RecordFor(id, kind)]);
          }
          if queue != [] || left != {} {
            active := BatchInvocation(queue, left, tx, join);
            return HandledLocally(false);
          }
          if tx { outer := outer.(closes := outer.closes + 1); }
          active := Finalizing;
          if join { finalizers := finalizers + 1; }
          return HandledLocally(join);
        case _ => return HandledLocally(false);
      }
    }

    /** The forwarded completion came back; only success frees the proxy. */
    method ForwardReturned(ghost of: nat, success: bool)
      requires Valid() && Enabled(View(), ForwardDone(of, success))
      modifies this
      ensures Valid() && View() == Apply(cfg, old(View()), ForwardDone(of, success))
    {
      forwards := forwards - multiset{of};
      if success { active := NoInvocation; }
    }

    /** The finalize task's last section. */
    method Finalize()
      requires Valid() && Enabled(View(), FinalizeDone)
      modifies this
      ensures Valid() && View() == Apply(cfg, old(View()), FinalizeDone)
    {
      finalizers := finalizers - 1;
      active := NoInvocation;
    }
  }
}
