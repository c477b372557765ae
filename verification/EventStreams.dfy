/** The bounded event fan-out that internal/exec/execution.go and
    internal/debug/session_watch.go share: numbered events, one buffered channel
    pair per watcher, and a lag error for a watcher that does not keep up. */
module EventStreams {
  datatype Kind = Created | Started | Running | Stopped | Completed | Failed | Cancelled | Terminated

  /** The kinds that end a stream. */
  predicate TerminalKind(k: Kind) { k.Completed? || k.Failed? || k.Cancelled? || k.Terminated? }

  datatype Event = Event(sequence: nat, kind: Kind)

  type WatcherId = nat

  const BUFFER := 8

  datatype Ending = Live | Finished | Ended | Lagged

  /** One watcher: `from` is the sequence of its Current event, `received` what
      its reader has taken (history), `buffer` what waits in the channel,
      `errors` what was sent on the error channel, `closes` how often its
      channels were closed, and `queued` (history) what waited when they were. */
  datatype Watcher = Watcher(
    from: nat, received: seq<Event>, buffer: seq<Event>, errors: nat, closes: nat, queued: nat, ending: Ending)

  /** `history` is every event ever published; `all` holds every watcher ever
      made and `live` those still registered. */
  datatype Stream = Stream(history: seq<Event>, all: map<WatcherId, Watcher>, live: set<WatcherId>, next: WatcherId)

  const SILENT := Stream([], map[], {}, 0)

  function Seen(w: Watcher): seq<Event> { w.received + w.buffer }

  // -------------------------------------------------------------- operations

  function CloseWatcher(w: Watcher, ending: Ending): Watcher {
    w.(closes := w.closes + 1, queued := |w.buffer|, ending := ending,
       errors := if ending.Lagged? then w.errors + 1 else w.errors)
  }

  /** What one publication does to one registered watcher. */
  function Offer(w: Watcher, e: Event, terminal: bool): Watcher {
    if |w.buffer| < BUFFER then
      var taken := w.(buffer := w.buffer + [e]);
      if terminal then CloseWatcher(taken, Finished) else taken
    else CloseWatcher(w, Lagged)
  }

  /** The watchers after the event was offered to those in `ids`. */
  function Offered(all: map<WatcherId, Watcher>, ids: set<WatcherId>, e: Event,
                   terminal: bool): map<WatcherId, Watcher> {
    map id | id in all :: if id in ids then Offer(all[id], e, terminal) else all[id]
  }

  function Remaining(all: map<WatcherId, Watcher>, live: set<WatcherId>): set<WatcherId>
    requires live <= all.Keys
  {
    set id | id in live && all[id].ending.Live?
  }

  function Publish(s: Stream, kind: Kind, terminal: bool): Stream
    requires s.live <= s.all.Keys
  {
    var e := Event(|s.history| + 1, kind);
    var all := Offered(s.all, s.live, e, terminal);
    Stream(s.history + [e], all, Remaining(all, s.live), s.next)
  }

  /** A watcher of a stream that has not ended. */
  function Subscribe(s: Stream): Stream {
    s.(next := s.next + 1, live := s.live + {s.next + 1},
       all := s.all[s.next + 1 := Watcher(|s.history|, [], [], 0, 0, 0, Live)])
  }

  function Unsubscribe(s: Stream, id: WatcherId): Stream
    requires s.live <= s.all.Keys
  {
    if id !in s.live then s
    else s.(live := s.live - {id}, all := s.all[id := CloseWatcher(s.all[id], Ended)])
  }

  function CloseAll(s: Stream): Stream
    requires s.live <= s.all.Keys
  {
    s.(live := {}, all := map id | id in s.all :: if id in s.live then CloseWatcher(s.all[id], Ended) else s.all[id])
  }

  /** The reader takes the next buffered event. */
  function Receive(s: Stream, id: WatcherId): Stream
    requires id in s.all && s.all[id].buffer != []
  {
    var w := s.all[id];
    s.(all := s.all[id := w.(received := w.received + [w.buffer[0]], buffer := w.buffer[1..])])
  }

  /** A send on a full error channel would block, and closing a closed channel
      would panic. */
  predicate Safe(s: Stream)
    requires s.live <= s.all.Keys
  {
    forall id <- s.live :: s.all[id].errors == 0 && s.all[id].closes == 0
  }

  // --------------------------------------------------------------- invariant

  /** A watcher has seen consecutive events from its Current one on: all so far
      while it is registered, or all up to its end. A finished watcher saw the
      last event; a lagged one had a full buffer when it missed the event right
      after what it saw. */
  ghost predicate WatcherOk(w: Watcher, history: seq<Event>, live: bool) {
    && w.from + |Seen(w)| <= |history| && Seen(w) == history[w.from..w.from + |Seen(w)|]
    && |w.buffer| <= BUFFER
    && w.closes == (if live then 0 else 1) && w.errors == (if w.ending.Lagged? then 1 else 0)
    && (live <==> w.ending.Live?)
    && (live ==> w.from + |Seen(w)| == |history|)
    && (w.ending.Lagged? ==> w.from + |Seen(w)| < |history| && w.queued == BUFFER)
  }

  ghost predicate Inv(s: Stream) {
    && (forall i :: 0 <= i < |s.history| ==> s.history[i].sequence == i + 1)
    && s.live <= s.all.Keys && (forall id <- s.all :: id <= s.next)
    && (forall id <- s.all :: WatcherOk(s.all[id], s.history, id in s.live))
  }

  lemma OfferOk(w: Watcher, history: seq<Event>, kind: Kind, terminal: bool)
    requires WatcherOk(w, history, true)
    ensures var e := Event(|history| + 1, kind);
            var o := Offer(w, e, terminal);
            && WatcherOk(o, history + [e], o.ending.Live?)
            && (o.ending.Live? ==> !terminal) && (o.ending.Finished? ==> w.from + |Seen(o)| == |history| + 1)
  {
    var e := Event(|history| + 1, kind);
    var more := history + [e];
    assert w.received + (w.buffer + [e]) == (w.received + w.buffer) + [e];
    assert more[w.from..|more|] == history[w.from..|history|] + [e];
    assert more[w.from..w.from + |Seen(w)|] == history[w.from..w.from + |Seen(w)|];
  }

  lemma EndedOk(w: Watcher, history: seq<Event>, e: Event)
    requires WatcherOk(w, history, false)
    ensures WatcherOk(w, history + [e], false)
  {
    assert (history + [e])[w.from..w.from + |Seen(w)|] == history[w.from..w.from + |Seen(w)|];
  }

  lemma PublishKeeps(s: Stream, kind: Kind, terminal: bool)
    requires Inv(s)
    ensures Safe(s) && Inv(Publish(s, kind, terminal))
    ensures terminal ==> Publish(s, kind, terminal).live == {}
  {
    hide WatcherOk, Offer;
    var b := Publish(s, kind, terminal);
    var e := Event(|s.history| + 1, kind);
    SafeOf(s);
    forall id | id in s.all ensures WatcherOk(b.all[id], b.history, id in b.live) && (terminal ==> id !in b.live) {
      if id in s.live { OfferOk(s.all[id], s.history, kind, terminal); } else { EndedOk(s.all[id], s.history, e); }
    }
  }

  lemma SafeOf(s: Stream)
    requires Inv(s)
    ensures Safe(s)
  {
  }

  lemma ReceiveOk(w: Watcher, history: seq<Event>, live: bool)
    requires WatcherOk(w, history, live) && w.buffer != []
    ensures WatcherOk(w.(received := w.received + [w.buffer[0]], buffer := w.buffer[1..]), history, live)
    ensures w.buffer[0] == history[w.from + |w.received|]
    ensures w.buffer[0].sequence == history[w.from + |w.received|].sequence
  {
    assert (w.received + [w.buffer[0]]) + w.buffer[1..] == w.received + w.buffer;
    assert w.buffer[0] == Seen(w)[|w.received|];
  }

  lemma ClosedOk(w: Watcher, history: seq<Event>)
    requires WatcherOk(w, history, true)
    ensures WatcherOk(CloseWatcher(w, Ended), history, false)
  {
  }

  lemma SubscribeKeeps(s: Stream)
    requires Inv(s)
    ensures Inv(Subscribe(s)) && s.next + 1 !in s.all
  {
    assert WatcherOk(Watcher(|s.history|, [], [], 0, 0, 0, Live), s.history, true) by {
      assert s.history[|s.history|..|s.history|] == [];
    }
    hide WatcherOk;
  }

  lemma UnsubscribeKeeps(s: Stream, id: WatcherId)
    requires Inv(s)
    ensures Inv(Unsubscribe(s, id))
  {
    hide WatcherOk;
    if id in s.live { ClosedOk(s.all[id], s.history); }
  }

  lemma CloseAllKeeps(s: Stream)
    requires Inv(s)
    ensures Inv(CloseAll(s))
  {
    hide WatcherOk;
    forall id | id in s.live ensures WatcherOk(CloseWatcher(s.all[id], Ended), s.history, false) {
      ClosedOk(s.all[id], s.history);
    }
  }

  /** What a reader takes next is the event right after the last one it knows:
      no gap and no duplicate. */
  lemma ReceiveKeeps(s: Stream, id: WatcherId)
    requires Inv(s) && id in s.all && s.all[id].buffer != []
    ensures Inv(Receive(s, id))
    ensures s.all[id].buffer[0].sequence == s.all[id].from + |s.all[id].received| + 1
  {
    ReceiveOk(s.all[id], s.history, id in s.live);
  }

  // -------------------------------------------------------------- the object

  /** The watcher bookkeeping of one resource. */
  class Publisher {
    ghost var history: seq<Event>
    var sequence: nat
    var all: map<WatcherId, Watcher>
    var live: set<WatcherId>
    var next: WatcherId

    ghost function View(): Stream
      reads this
    {
      Stream(history, all, live, next)
    }

    ghost predicate Valid()
      reads this
    {
      Inv(View()) && sequence == |history|
    }

    constructor ()
      ensures Valid() && View() == SILENT
    {
      history, sequence, all, live, next := [], 0, map[], {}, 0;
    }

    /** closeWatcherLocked on a registered watcher. */
    method Close(id: WatcherId, ending: Ending)
      requires id in live && id in all && all[id].closes == 0 && all[id].errors == 0
      modifies `all, `live
      ensures all == old(all)[id := CloseWatcher(old(all)[id], ending)] && live == old(live) - {id}
    {
      all := all[id := all[id].(closes := all[id].closes + 1, queued := |all[id].buffer|, ending := ending,
                                errors := if ending.Lagged? then all[id].errors + 1 else all[id].errors)];
      live := live - {id};
    }

    /** The select of publishLocked for one watcher. */
    method OfferTo(id: WatcherId, e: Event, terminal: bool)
      requires id in live && id in all && all[id].ending.Live? && all[id].closes == 0 && all[id].errors == 0
      modifies `all, `live
      ensures all == old(all)[id := Offer(old(all)[id], e, terminal)]
      ensures live == if Offer(old(all)[id], e, terminal).ending.Live? then old(live) else old(live) - {id}
    {
      if |all[id].buffer| < BUFFER {
        all := all[id := all[id].(buffer := all[id].buffer + [e])];
        if terminal { Close(id, Finished); }
      } else {
        Close(id, Lagged);
      }
    }

    method PublishEvent(kind: Kind, terminal: bool)
      requires Valid()
      modifies this
      ensures Valid() && View() == Publish(old(View()), kind, terminal)
    {
      hide WatcherOk, Inv, Offer, Offered, Remaining;
      ghost var before := View();
      LiveKnown(before);
      sequence := sequence + 1;
      var e := Event(sequence, kind);
      history := history + [e];
      var remaining := live;
      NothingOffered(before, e, terminal);
      while remaining != {}
        invariant remaining <= before.live && sequence == |history|
        invariant history == before.history + [e] && next == before.next
        invariant all == Offered(before.all, before.live - remaining, e, terminal)
        invariant before.live <= all.Keys && live == Remaining(all, before.live)
        decreases |remaining|
      {
        var id :| id in remaining;
        OfferedNext(before, before.live - remaining, id, e, terminal);
        OfferTo(id, e, terminal);
        assert before.live - (remaining - {id}) == before.live - remaining + {id};
        remaining := remaining - {id};
      }
      assert before.live - remaining == before.live;
      PublishKeeps(before, kind, terminal);
    }

    method SubscribeWatcher() returns (id: WatcherId)
      requires Valid()
      modifies this
      ensures Valid() && View() == Subscribe(old(View())) && id !in old(all)
    {
      SubscribeKeeps(View());
      next := next + 1;
      id := next;
      all := all[id := Watcher(sequence, [], [], 0, 0, 0, Live)];
      live := live + {id};
    }

    method UnsubscribeWatcher(id: WatcherId)
      requires Valid()
      modifies this
      ensures Valid() && View() == Unsubscribe(old(View()), id)
    {
      UnsubscribeKeeps(View(), id);
      if id !in live { return; }
      Close(id, Ended);
    }

    /** The watcher loop of settleClose. */
    method CloseWatchers()
      requires Valid()
      modifies this
      ensures Valid() && View() == CloseAll(old(View()))
    {
      hide WatcherOk, Inv;
      ghost var before := View();
      assert before.live <= before.all.Keys && Safe(before) by { LiveKnown(before); SafeOf(before); }
      while live != {}
        invariant live <= before.live && all.Keys == before.all.Keys
        invariant sequence == |history| && history == before.history && next == before.next
        invariant forall id <- before.live - live :: all[id] == CloseWatcher(before.all[id], Ended)
        invariant forall id <- all :: id !in before.live - live ==> all[id] == before.all[id]
        decreases |live|
      {
        var id :| id in live;
        Close(id, Ended);
      }
      assert all == CloseAll(before).all;
      CloseAllKeeps(before);
    }
  }

  lemma NothingOffered(s: Stream, e: Event, terminal: bool)
    requires Inv(s)
    ensures s.live <= s.all.Keys && Offered(s.all, s.live - s.live, e, terminal) == s.all
    ensures Remaining(s.all, s.live) == s.live
  {
    forall id | id in s.live ensures s.all[id].ending.Live? { LiveWatcher(s, id); }
  }

  /** Offering the event to one more watcher. */
  lemma OfferedNext(s: Stream, ids: set<WatcherId>, id: WatcherId, e: Event, terminal: bool)
    requires Inv(s) && ids <= s.live && id in s.live && id !in ids
    ensures s.live <= s.all.Keys
    ensures var now, more := Offered(s.all, ids, e, terminal), Offered(s.all, ids + {id}, e, terminal);
            && s.live <= now.Keys == more.Keys && id in now && now[id] == s.all[id]
            && more == now[id := Offer(s.all[id], e, terminal)]
            && id in Remaining(now, s.live) && s.all[id].ending.Live? && s.all[id].closes == 0 && s.all[id].errors == 0
            && Remaining(more, s.live) ==
               if Offer(s.all[id], e, terminal).ending.Live? then Remaining(now, s.live)
               else Remaining(now, s.live) - {id}
  {
    hide Offer, WatcherOk;
    LiveWatcher(s, id);
  }

  lemma LiveKnown(s: Stream)
    requires Inv(s)
    ensures s.live <= s.all.Keys
  {
  }

  lemma LiveWatcher(s: Stream, id: WatcherId)
    requires Inv(s) && id in s.live
    ensures id in s.all && s.all[id].ending.Live? && s.all[id].closes == 0 && s.all[id].errors == 0
  {
  }
}
