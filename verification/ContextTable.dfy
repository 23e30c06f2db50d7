/** A map from library tokens to contexts, as the MQTT service keeps one for pending
    subscribes, unsubscribes and publishes: an accepted call stores its context under the
    token the library chose, a completion calls the context back and erases it, a delivery
    confirmation calls it back and leaves it. Tokens may be reused at any time. */
module ContextTable {

  datatype Limit = Unlimited | AtMost(size: nat)

  /** `id` tells one call from another: the position of its `Store` in the run. */
  datatype Entry<C> = Entry(id: nat, ctx: C)

  datatype Event<C, R> =
    | Store(token: int, ctx: C)
    | Complete(token: int, info: R)
    | Confirm(token: int)

  /** A call made to the user: `Done` by a completion, `Confirmed` by a delivery. */
  datatype Callback<C, R> =
    | Done(id: nat, ctx: C, info: R)
    | Confirmed(id: nat, ctx: C)

  datatype Table<C, R> = Table(clock: nat, entries: map<int, Entry<C>>, log: seq<Callback<C, R>>)

  function Empty<C, R>(): Table<C, R> {
    Table(0, map[], [])
  }

  /** The size test made before storing: a full table refuses, even for a token it already holds. */
  predicate Refuses<C, R>(limit: Limit, t: Table<C, R>) {
    limit.AtMost? && |t.entries| > limit.size
  }

  function Step<C, R>(limit: Limit, t: Table<C, R>, e: Event<C, R>): Table<C, R> {
    var next := t.(clock := t.clock + 1);
    match e
    case Store(token, ctx) =>
      if Refuses(limit, t) then next
      else next.(entries := t.entries[token := Entry(t.clock, ctx)])
    case Complete(token, info) =>
      if token !in t.entries then next
      else next.(entries := t.entries - {token},
                 log := t.log + [Done(t.entries[token].id, t.entries[token].ctx, info)])
    case Confirm(token) =>
      if token !in t.entries then next
      else next.(log := t.log + [Confirmed(t.entries[token].id, t.entries[token].ctx)])
  }

  function Run<C, R>(limit: Limit, events: seq<Event<C, R>>): (t: Table<C, R>)
    ensures t.clock == |events|
  {
    if events == [] then Empty()
    else Step(limit, Run(limit, events[..|events| - 1]), events[|events| - 1])
  }

  /** The table after the first `n` events. */
  function At<C, R>(limit: Limit, events: seq<Event<C, R>>, n: nat): (t: Table<C, R>)
    requires n <= |events|
    ensures t.clock == n
  {
    Run(limit, events[..n])
  }

  lemma AtNext<C, R>(limit: Limit, events: seq<Event<C, R>>, n: nat)
    requires n < |events|
    ensures At(limit, events, n + 1) == Step(limit, At(limit, events, n), events[n])
  {
    assert events[..n + 1][..n] == events[..n];
  }

  // ---- What becomes of one accepted call, read off the events alone ----

  predicate RefusedAt<C, R>(limit: Limit, events: seq<Event<C, R>>, i: nat)
    requires i < |events|
  {
    events[i].Store? && Refuses(limit, At(limit, events, i))
  }

  /** Event `j` ends the life of the context stored by event `i`. */
  predicate Ends<C, R>(limit: Limit, events: seq<Event<C, R>>, i: nat, j: nat)
    requires i < |events| && j < |events| && events[i].Store?
  {
    && events[j].token == events[i].token
    && (events[j].Complete? || (events[j].Store? && !RefusedAt(limit, events, j)))
  }

  datatype Fate = Refused | Pending | Completed(at: nat) | Overwritten(at: nat)

  /** Only the first event that ends a pending call decides its fate. */
  function NextFate<C, R>(fate: Fate, ends: bool, e: Event<C, R>, n: nat): Fate {
    if !fate.Pending? || !ends then fate
    else if e.Complete? then Completed(n)
    else Overwritten(n)
  }

  /** Refused on arrival, or ended by the first later event that ends it, or still pending
      after `n` events. */
  function FateOf<C, R>(limit: Limit, events: seq<Event<C, R>>, i: nat, n: nat): (f: Fate)
    requires i < n <= |events| && events[i].Store?
    ensures f.Completed? || f.Overwritten? ==>
              && i < f.at < n && Ends(limit, events, i, f.at)
              && forall k :: i < k < f.at ==> !Ends(limit, events, i, k)
    ensures f.Completed? ==> events[f.at].Complete?
    ensures f.Overwritten? ==> events[f.at].Store?
    ensures f.Pending? ==> forall k :: i < k < n ==> !Ends(limit, events, i, k)
    ensures f.Refused? <==> RefusedAt(limit, events, i)
  {
    if RefusedAt(limit, events, i) then Refused
    else if n == i + 1 then Pending
    else
      NextFate(FateOf(limit, events, i, n - 1), Ends(limit, events, i, n - 1), events[n - 1], n - 1)
  }

  // ---- What the table and the callbacks show of it ----

  function Calls<C, R>(log: seq<Callback<C, R>>, id: nat): (r: seq<Callback<C, R>>)
    ensures forall k :: 0 <= k < |r| ==> r[k].id == id
  {
    if log == [] then []
    else
      var last := log[|log| - 1];
      Calls(log[..|log| - 1], id) + if last.id == id then [last] else []
  }

  lemma CallsOfAppend<C, R>(log: seq<Callback<C, R>>, c: Callback<C, R>, id: nat)
    ensures Calls(log + [c], id) == Calls(log, id) + if c.id == id then [c] else []
  {
    assert (log + [c])[..|log|] == log;
  }

  ghost predicate Holds<C, R>(t: Table<C, R>, id: nat) {
    exists token :: token in t.entries && t.entries[token].id == id
  }

  /** Any number of delivery confirmations, all of call `id` with its own context. */
  ghost predicate OnlyConfirmations<C, R>(calls: seq<Callback<C, R>>, id: nat, ctx: C) {
    forall k :: 0 <= k < |calls| ==> calls[k] == Confirmed(id, ctx)
  }

  /** What call `i`'s fate means for the map and for the callbacks it received. */
  ghost predicate Shows<C, R>(t: Table<C, R>, fate: Fate, events: seq<Event<C, R>>, i: nat)
    requires i < |events| && events[i].Store?
    requires fate.Completed? ==> fate.at < |events| && events[fate.at].Complete?
  {
    var token, ctx, calls := events[i].token, events[i].ctx, Calls(t.log, i);
    match fate
    case Refused => !Holds(t, i) && calls == []
    case Pending => token in t.entries && t.entries[token] == Entry(i, ctx) && OnlyConfirmations(calls, i, ctx)
    case Overwritten(_) => !Holds(t, i) && OnlyConfirmations(calls, i, ctx)
    case Completed(j) =>
      && !Holds(t, i)
      && |calls| > 0
      && calls[|calls| - 1] == Done(i, ctx, events[j].info)
      && OnlyConfirmations(calls[..|calls| - 1], i, ctx)
  }

  ghost predicate Accounted<C, R>(limit: Limit, events: seq<Event<C, R>>, i: nat, n: nat)
    requires i < n <= |events| && events[i].Store?
  {
    Shows(At(limit, events, n), FateOf(limit, events, i, n), events, i)
  }

  /** Entries sit under the token of the call that stored them, and calls are in the past. */
  ghost predicate Consistent<C, R>(limit: Limit, events: seq<Event<C, R>>, n: nat)
    requires n <= |events|
  {
    var t := At(limit, events, n);
    && (forall token :: token in t.entries ==>
          var id := t.entries[token].id;
          id < n && events[id] == Store(token, t.entries[token].ctx))
    && (forall k :: 0 <= k < |t.log| ==> t.log[k].id < n)
  }

  lemma {:induction false} AlwaysConsistent<C, R>(limit: Limit, events: seq<Event<C, R>>, n: nat)
    requires n <= |events|
    ensures Consistent(limit, events, n)
  {
    if n > 0 {
      AlwaysConsistent(limit, events, n - 1);
      AtNext(limit, events, n - 1);
    }
  }

  lemma {:induction false} NoCallsFromTheFuture<C, R>(log: seq<Callback<C, R>>, id: nat)
    requires forall k :: 0 <= k < |log| ==> log[k].id < id
    ensures Calls(log, id) == []
  {
    if log != [] {
      NoCallsFromTheFuture(log[..|log| - 1], id);
    }
  }

  lemma AccountedOnStore<C, R>(limit: Limit, events: seq<Event<C, R>>, i: nat)
    requires i < |events| && events[i].Store?
    ensures Accounted(limit, events, i, i + 1)
  {
    AlwaysConsistent(limit, events, i);
    AtNext(limit, events, i);
    NoCallsFromTheFuture(At(limit, events, i).log, i);
  }

  /** A call that is not in the table gets no further callback. */
  lemma AbsentStaysAbsent<C, R>(limit: Limit, t: Table<C, R>, e: Event<C, R>, i: nat)
    requires !Holds(t, i) && i < t.clock
    ensures var t' := Step(limit, t, e); !Holds(t', i) && Calls(t'.log, i) == Calls(t.log, i)
  {
    if !e.Store? && e.token in t.entries {
      CallsOfAppend(t.log, Step(limit, t, e).log[|t.log|], i);
    }
  }

  /** A pending call under `token`: what one event does to it. */
  lemma PendingNext<C, R>(limit: Limit, t: Table<C, R>, e: Event<C, R>, token: int, i: nat, ctx: C)
    requires token in t.entries && t.entries[token] == Entry(i, ctx) && i < t.clock
    requires forall k :: k in t.entries && t.entries[k].id == i ==> k == token
    ensures var t' := Step(limit, t, e);
            var ends := e.token == token && (e.Complete? || (e.Store? && !Refuses(limit, t)));
            && (ends <==> !Holds(t', i))
            && (!ends ==> token in t'.entries && t'.entries[token] == Entry(i, ctx))
            && Calls(t'.log, i) == Calls(t.log, i) +
                 (if e.token != token || e.Store? then []
                  else if e.Complete? then [Done(i, ctx, e.info)]
                  else [Confirmed(i, ctx)])
  {
    var t' := Step(limit, t, e);
    if !e.Store? && e.token in t.entries {
      CallsOfAppend(t.log, t'.log[|t.log|], i);
    }
    if token in t'.entries && t'.entries[token].id == i {
      assert Holds(t', i);
    }
  }

  lemma ShowsNext<C, R>(limit: Limit, t: Table<C, R>, fate: Fate, events: seq<Event<C, R>>, i: nat, n: nat)
    requires i < n < |events| && events[i].Store? && t.clock == n
    requires fate.Completed? ==> fate.at < n && events[fate.at].Complete?
    requires Shows(t, fate, events, i)
    requires fate.Pending? ==> forall k :: k in t.entries && t.entries[k].id == i ==> k == events[i].token
    ensures var e := events[n];
            var ends := e.token == events[i].token && (e.Complete? || (e.Store? && !Refuses(limit, t)));
            Shows(Step(limit, t, e), NextFate(fate, ends, e, n), events, i)
  {
    if fate.Pending? {
      PendingNext(limit, t, events[n], events[i].token, i, events[i].ctx);
    } else {
      AbsentStaysAbsent(limit, t, events[n], i);
    }
  }

  lemma AccountedNext<C, R>(limit: Limit, events: seq<Event<C, R>>, i: nat, n: nat)
    requires i < n < |events| && events[i].Store?
    requires Accounted(limit, events, i, n)
    ensures Accounted(limit, events, i, n + 1)
  {
    AtNext(limit, events, n);
    AlwaysConsistent(limit, events, n);
    ShowsNext(limit, At(limit, events, n), FateOf(limit, events, i, n), events, i, n);
  }

  /** Every accepted call, in every run, whatever tokens the library reuses: its fate is
      exactly one of refused, pending, completed and overwritten; it is in the map exactly
      while pending; it gets one completion callback if completed and none otherwise, with
      its own context, and nothing after that one. */
  lemma {:induction false} EveryCallAccounted<C, R>(limit: Limit, events: seq<Event<C, R>>, i: nat, n: nat)
    requires i < n <= |events| && events[i].Store?
    ensures Accounted(limit, events, i, n)
  {
    if n == i + 1 {
      AccountedOnStore(limit, events, i);
    } else {
      EveryCallAccounted(limit, events, i, n - 1);
      AccountedNext(limit, events, i, n - 1);
    }
  }

  lemma CompletionIsLast<C, R>(t: Table<C, R>, fate: Fate, events: seq<Event<C, R>>, i: nat, k: nat)
    requires i < |events| && events[i].Store?
    requires fate.Completed? ==> fate.at < |events| && events[fate.at].Complete?
    requires Shows(t, fate, events, i)
    requires k < |Calls(t.log, i)| && Calls(t.log, i)[k].Done?
    ensures k == |Calls(t.log, i)| - 1 && Calls(t.log, i)[k].ctx == events[i].ctx && fate.Completed?
  {
    var calls := Calls(t.log, i);
    assert forall m :: 0 <= m < |calls| - 1 ==> calls[m] == calls[..|calls| - 1][m];
  }

  /** At most one completion callback for each call: it is the last callback the call gets. */
  lemma AtMostOneCompletion<C, R>(limit: Limit, events: seq<Event<C, R>>, i: nat, n: nat, k: nat)
    requires i < n <= |events| && events[i].Store?
    requires var calls := Calls(At(limit, events, n).log, i); k < |calls| && calls[k].Done?
    ensures var calls := Calls(At(limit, events, n).log, i);
            k == |calls| - 1 && calls[k].ctx == events[i].ctx && FateOf(limit, events, i, n).Completed?
  {
    EveryCallAccounted(limit, events, i, n);
    CompletionIsLast(At(limit, events, n), FateOf(limit, events, i, n), events, i, k);
  }

  // ---- Conservation and the size bound ----

  /** Calls accepted by the library. */
  function Stores<C, R>(events: seq<Event<C, R>>): nat {
    if events == [] then 0
    else Stores(events[..|events| - 1]) + if events[|events| - 1].Store? then 1 else 0
  }

  function Refusals<C, R>(limit: Limit, events: seq<Event<C, R>>): nat {
    if events == [] then 0
    else
      var before, e := events[..|events| - 1], events[|events| - 1];
      Refusals(limit, before) + if e.Store? && Refuses(limit, Run(limit, before)) then 1 else 0
  }

  function Overwrites<C, R>(limit: Limit, events: seq<Event<C, R>>): nat {
    if events == [] then 0
    else
      var before, e := events[..|events| - 1], events[|events| - 1];
      var t := Run(limit, before);
      Overwrites(limit, before) + if e.Store? && !Refuses(limit, t) && e.token in t.entries then 1 else 0
  }

  function Completions<C, R>(log: seq<Callback<C, R>>): nat {
    if log == [] then 0
    else Completions(log[..|log| - 1]) + if log[|log| - 1].Done? then 1 else 0
  }

  /** No context is lost or duplicated: the accepted calls are those in the map, those
      completed, those overwritten and those refused. */
  lemma {:induction false} Conservation<C, R>(limit: Limit, events: seq<Event<C, R>>)
    ensures var t := Run(limit, events);
            Stores(events) == |t.entries| + Completions(t.log) + Overwrites(limit, events) + Refusals(limit, events)
  {
    if events != [] {
      var before, e := events[..|events| - 1], events[|events| - 1];
      Conservation(limit, before);
      var t, t' := Run(limit, before), Run(limit, events);
      if e.Store? {
        if e.token in t.entries {
          assert t.entries[e.token := Entry(t.clock, e.ctx)].Keys == t.entries.Keys;
        } else {
          assert t.entries[e.token := Entry(t.clock, e.ctx)].Keys == t.entries.Keys + {e.token};
        }
      } else if e.token in t.entries {
        assert t'.log[..|t'.log| - 1] == t.log;
        if e.Complete? {
          assert t'.entries.Keys == t.entries.Keys - {e.token};
        }
      }
    }
  }

  /** A limited table never holds more than one entry above its limit. */
  lemma {:induction false} SizeBound<C, R>(limit: Limit, events: seq<Event<C, R>>)
    requires limit.AtMost?
    ensures |Run(limit, events).entries| <= limit.size + 1
  {
    if events != [] {
      var before, e := events[..|events| - 1], events[|events| - 1];
      SizeBound(limit, before);
      var t, t' := Run(limit, before), Run(limit, events);
      if e.Store? && !Refuses(limit, t) {
        assert t'.entries.Keys == t.entries.Keys + {e.token};
      } else if e.Complete? && e.token in t.entries {
        assert t'.entries.Keys == t.entries.Keys - {e.token};
      }
    }
  }

  /** The bound is reached: one more call than the limit, each under a token of its own. */
  lemma {:induction false} LimitReached<C, R>(size: nat, ctx: C, events: seq<Event<C, R>>)
    requires |events| <= size + 1 && forall k :: 0 <= k < |events| ==> events[k] == Store(k, ctx)
    ensures |Run(AtMost(size), events).entries| == |events|
    ensures forall token :: token in Run(AtMost(size), events).entries ==> 0 <= token < |events|
  {
    if events != [] {
      var n := |events| - 1;
      LimitReached(size, ctx, events[..n]);
      var t, t' := Run(AtMost(size), events[..n]), Run(AtMost(size), events);
      assert t'.entries.Keys == t.entries.Keys + {n};
    }
  }

  /** A call is refused exactly when the table held more entries than the limit before it. */
  lemma {:induction false} RefusedExactly<C, R>(limit: Limit, events: seq<Event<C, R>>, i: nat, n: nat)
    requires i < n <= |events| && events[i].Store?
    ensures FateOf(limit, events, i, n).Refused? <==> limit.AtMost? && |At(limit, events, i).entries| > limit.size
  {
    if n > i + 1 {
      RefusedExactly(limit, events, i, n - 1);
    }
  }

  /** A completion or a confirmation that names the token of a pending call makes one callback, to
      that call, with its own context. */
  lemma PendingIsCalled<C, R>(limit: Limit, events: seq<Event<C, R>>, i: nat, n: nat)
    requires i < n < |events| && events[i].Store? && FateOf(limit, events, i, n).Pending?
    requires events[n].token == events[i].token
    ensures var before, after := At(limit, events, n).log, At(limit, events, n + 1).log;
            && (events[n].Complete? ==> after == before + [Done(i, events[i].ctx, events[n].info)])
            && (events[n].Confirm? ==> after == before + [Confirmed(i, events[i].ctx)])
            && (events[n].Store? ==> after == before)
  {
    EveryCallAccounted(limit, events, i, n);
    AtNext(limit, events, n);
  }

  /** One that names the token of no pending call makes none. */
  lemma NobodyIsCalled<C, R>(limit: Limit, events: seq<Event<C, R>>, n: nat)
    requires n < |events| && !events[n].Store?
    requires forall i :: 0 <= i < n && events[i].Store? && events[i].token == events[n].token ==>
               !FateOf(limit, events, i, n).Pending?
    ensures At(limit, events, n + 1).log == At(limit, events, n).log
  {
    AtNext(limit, events, n);
    AlwaysConsistent(limit, events, n);
    var t := At(limit, events, n);
    if events[n].token in t.entries {
      var i := t.entries[events[n].token].id;
      EveryCallAccounted(limit, events, i, n);
    }
  }
}
