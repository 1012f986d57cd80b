/**
 The adapter's merge of per-request record streams: at most `limit` streams are open at a time, the
 next one is started when one ends, and items come out in whatever order the open streams are ready.
 Which stream is ready next, and when none is, is the environment's choice.
 */
module ConcurrentSelect {

  datatype Polled<A> = Item(value: A) | Finished | NotReady

  /** What stream i contributed to the merged output. */
  ghost function FromStream<A>(out: seq<(nat, A)>, i: nat): seq<A> {
    if out == [] then []
    else FromStream(out[..|out| - 1], i) + if out[|out| - 1].0 == i then [out[|out| - 1].1] else []
  }

  /** out contains every stream, whole and in its own order, and nothing else. */
  ghost predicate Merged<A>(out: seq<(nat, A)>, streams: seq<seq<A>>) {
    && (forall k :: 0 <= k < |out| ==> out[k].0 < |streams|)
    && (forall i: nat :: i < |streams| ==> FromStream(out, i) == streams[i])
  }

  /** What stream i still has to yield, when the streams from number `started` on are untouched. */
  ghost function Left<A>(all: seq<seq<A>>, started: nat, active: map<nat, seq<A>>, i: nat): seq<A>
    requires i < |all|
  {
    if started <= i then all[i] else if i in active then active[i] else []
  }

  /** Every stream is what has been emitted of it, followed by what is left of it. */
  ghost predicate Conserved<A>(all: seq<seq<A>>, started: nat, active: map<nat, seq<A>>, emitted: seq<(nat, A)>) {
    && (forall k :: 0 <= k < |emitted| ==> emitted[k].0 < |all|)
    && (forall i: nat :: i < |all| ==> FromStream(emitted, i) + Left(all, started, active, i) == all[i])
  }

  /** What is left of every stream stays the same, so what was conserved is. */
  lemma SameLeft<A>(all: seq<seq<A>>, started: nat, active: map<nat, seq<A>>, started': nat, active': map<nat, seq<A>>,
                    emitted: seq<(nat, A)>)
    requires Conserved(all, started, active, emitted)
    requires forall i: nat :: i < |all| ==> Left(all, started', active', i) == Left(all, started, active, i)
    ensures Conserved(all, started', active', emitted)
  {
    forall i: nat | i < |all| ensures FromStream(emitted, i) + Left(all, started', active', i) == all[i] {
      assert FromStream(emitted, i) + Left(all, started, active, i) == all[i];
    }
  }

  lemma StartConserves<A>(all: seq<seq<A>>, started: nat, active: map<nat, seq<A>>, emitted: seq<(nat, A)>)
    requires started < |all| && started !in active
    requires Conserved(all, started, active, emitted)
    ensures Conserved(all, started + 1, active[started := all[started]], emitted)
  {
    SameLeft(all, started, active, started + 1, active[started := all[started]], emitted);
  }

  lemma ForgetConserves<A>(all: seq<seq<A>>, started: nat, active: map<nat, seq<A>>, emitted: seq<(nat, A)>, i: nat)
    requires i in active && active[i] == [] && i < started
    requires Conserved(all, started, active, emitted)
    ensures Conserved(all, started, active - {i}, emitted)
  {
    SameLeft(all, started, active, started, active - {i}, emitted);
  }

  lemma YieldConserves<A>(all: seq<seq<A>>, started: nat, active: map<nat, seq<A>>, emitted: seq<(nat, A)>, i: nat)
    requires i in active && active[i] != [] && i < started <= |all|
    requires Conserved(all, started, active, emitted)
    ensures Conserved(all, started, active[i := active[i][1..]], emitted + [(i, active[i][0])])
  {
    var active', emitted' := active[i := active[i][1..]], emitted + [(i, active[i][0])];
    assert emitted'[..|emitted'| - 1] == emitted;
    forall j: nat | j < |all|
      ensures FromStream(emitted', j) + Left(all, started, active', j) == all[j]
    {
      if j == i {
        assert active[i] == [active[i][0]] + active[i][1..];
        assert (FromStream(emitted, i) + [active[i][0]]) + active[i][1..] == FromStream(emitted, i) + active[i];
      } else {
        assert Left(all, started, active', j) == Left(all, started, active, j);
        assert FromStream(emitted', j) == FromStream(emitted, j) + [];
      }
    }
  }

  lemma FinishedIsMerged<A>(all: seq<seq<A>>, emitted: seq<(nat, A)>)
    requires Conserved(all, |all|, map[], emitted)
    ensures Merged(emitted, all)
  {
    forall i: nat | i < |all| ensures FromStream(emitted, i) == all[i] {
      assert Left(all, |all|, map[], i) == [];
      assert FromStream(emitted, i) + [] == FromStream(emitted, i);
    }
  }

  class Select<A> {
    ghost const all: seq<seq<A>>
    var iter: seq<seq<A>>           // streams not started yet
    var active: map<nat, seq<A>>    // open streams by number, and what they still have to yield
    const limit: nat
    var started: nat                // names the next stream
    var exhausted: bool
    ghost var emitted: seq<(nat, A)>

    ghost predicate Valid()
      reads this
    {
      && 1 <= limit
      && |active| <= limit
      && started <= |all| && iter == all[started..]
      && (forall i :: i in active ==> i < started)
      && (exhausted ==> iter == [])
      && Conserved(all, started, active, emitted)
    }

    constructor (streams: seq<seq<A>>, concurrency: nat)
      ensures Valid() && all == streams && emitted == []
      ensures limit == if concurrency == 0 then 1 else concurrency
    {
      all := streams;
      iter := streams;
      active := map[];
      limit := if concurrency == 0 then 1 else concurrency;
      started := 0;
      exhausted := false;
      emitted := [];
    }

    method StartNext()
      requires Valid() && iter != [] && |active| < limit && !exhausted
      modifies this`iter, this`active, this`started
      ensures Valid() && started == old(started) + 1 && |iter| == old(|iter|) - 1
    {
      StartConserves(all, started, active, emitted);
      active := active[started := iter[0]];
      iter := iter[1..];
      started := started + 1;
    }

    /** Starts streams, in order, until the limit is reached or none is left. */
    method Refill()
      requires Valid()
      modifies this`iter, this`active, this`exhausted, this`started
      ensures Valid()
      ensures exhausted || |active| == limit
      ensures started == old(started) ==> active == old(active)
      ensures old(started) <= started
      ensures old(exhausted) ==> exhausted
    {
      while !exhausted && |active| < limit
        invariant Valid()
        invariant old(started) <= started
        invariant started == old(started) ==> active == old(active)
        invariant old(exhausted) ==> exhausted
        decreases |iter|, !exhausted
      {
        if iter == [] {
          exhausted := true;
        } else {
          StartNext();
        }
      }
    }

    /** One poll of the open streams; streams found at their end are forgotten on the way. */
    method PollActive() returns (r: Polled<A>)
      requires Valid()
      modifies this`active, this`emitted
      ensures Valid()
      ensures r.Finished? ==> active == map[]
      ensures !r.Item? ==> emitted == old(emitted)
      ensures r.Item? ==> exists i: nat :: i < |all| && emitted == old(emitted) + [(i, r.value)]
      ensures |active| <= |old(active)|
    {
      while active != map[]
        invariant Valid()
        invariant |active| <= |old(active)|
        invariant emitted == old(emitted)
        decreases |active|
      {
        if * { return NotReady; }
        var i :| i in active;
        if active[i] == [] {
          ForgetConserves(all, started, active, emitted, i);
          active := active - {i};
        } else {
          YieldConserves(all, started, active, emitted, i);
          r := Item(active[i][0]);
          emitted := emitted + [(i, active[i][0])];
          active := active[i := active[i][1..]];
          return;
        }
      }
      return Finished;
    }

    /**
     One poll of the merge. Whatever has been yielded so far is, for every stream, the part of it
     that is no longer left; when the merge reports its end, everything has been yielded.
     */
    method PollNext() returns (r: Polled<A>)
      requires Valid()
      modifies this`iter, this`active, this`exhausted, this`emitted, this`started
      ensures Valid()
      ensures r.Item? ==> exists i: nat :: i < |all| && emitted == old(emitted) + [(i, r.value)]
      ensures !r.Item? ==> emitted == old(emitted)
      ensures r.Finished? ==> Merged(emitted, all)
    {
      while true
        invariant Valid()
        invariant emitted == old(emitted)
        decreases |all| - started + (if exhausted then 0 else 1), |active|
      {
        Refill();
        r := PollActive();
        if r.Finished? && exhausted { FinishedIsMerged(all, emitted); }
        if r.Finished? && !exhausted { continue; }
        return;
      }
    }
  }
}
