/** vekn_api.py: probing event ids upward until a long run of them answers "no event". */
module EventScan {

  /** A failed probe is no answer: the event may exist. */
  datatype Answer = Event(hasPlayers: bool, isFuture: bool) | NoEvent | Failed

  type Api = nat -> Answer

  /** An event worth reporting; a past one without players is not. */
  predicate Listed(a: Answer) {
    a.Event? && (a.hasPlayers || a.isFuture)
  }

  /** The confirmed-empty answers since the last event, among ids 1 to id - 1.
      Failed probes do not count, and do not break the run. */
  function EmptyRun(api: Api, id: nat): nat {
    if id <= 1 then 0
    else
      match api(id - 1)
      case Event(_, _) => 0
      case NoEvent => EmptyRun(api, id - 1) + 1
      case Failed => EmptyRun(api, id - 1)
  }

  /** The failed probes in a row just below id. */
  function FailedRun(api: Api, id: nat): nat {
    if id <= 1 || !api(id - 1).Failed? then 0 else FailedRun(api, id - 1) + 1
  }

  function ListedBelow(api: Api, id: nat): seq<nat> {
    if id <= 1 then [] else ListedBelow(api, id - 1) + (if Listed(api(id - 1)) then [id - 1] else [])
  }

  /** The verdict for every id below `id` that answered. */
  function Verdicts(api: Api, id: nat): map<nat, bool> {
    map n: nat | 1 <= n < id && !api(n).Failed? :: api(n).Event?
  }

  datatype Scan = Complete(events: seq<nat>, probed: map<nat, bool>, stop: nat) | Aborted

  /** No event above `last`: the reason the scan ends. */
  ghost predicate NothingAbove(api: Api, last: nat) {
    forall id: nat :: id > last ==> !api(id).Event?
  }

  method ScanBatch(api: Api, start: nat, size: nat, transientLimit: nat,
                   events: seq<nat>, probed: map<nat, bool>, empty: nat, transient: nat)
    returns (events': seq<nat>, probed': map<nat, bool>, empty': nat, transient': nat, aborted: bool)
    requires start >= 1
    requires events == ListedBelow(api, start) && probed == Verdicts(api, start)
    requires empty == EmptyRun(api, start) && transient == FailedRun(api, start)
    ensures aborted ==> exists id: nat :: FailedRun(api, id) >= transientLimit
    ensures !aborted ==>
      && events' == ListedBelow(api, start + size) && probed' == Verdicts(api, start + size)
      && empty' == EmptyRun(api, start + size) && transient' == FailedRun(api, start + size)
    ensures !aborted && transient < transientLimit ==>
      forall id: nat :: start <= id <= start + size ==> FailedRun(api, id) < transientLimit
  {
    events', probed', empty', transient' := events, probed, empty, transient;
    for id := start to start + size
      invariant events' == ListedBelow(api, id) && probed' == Verdicts(api, id)
      invariant empty' == EmptyRun(api, id) && transient' == FailedRun(api, id)
      invariant transient < transientLimit ==> forall n: nat :: start <= n <= id ==> FailedRun(api, n) < transientLimit
    {
      match api(id)
      case Failed =>
        transient' := transient' + 1;
        if transient' >= transientLimit {
          assert FailedRun(api, id + 1) >= transientLimit;
          return events', probed', empty', transient', true;
        }
      case NoEvent =>
        transient' := 0;
        probed' := probed'[id := false];
        empty' := empty' + 1;
      case Event(hasPlayers, isFuture) =>
        transient' := 0;
        probed' := probed'[id := true];
        empty' := 0;
        if hasPlayers || isFuture {
          events' := events' + [id];
        }
    }
    aborted := false;
  }

  lemma {:induction false} RunsGrow(api: Api, last: nat, start: nat, size: nat)
    requires NothingAbove(api, last) && start > last && start >= 1
    ensures EmptyRun(api, start + size) >= EmptyRun(api, start)
    ensures EmptyRun(api, start + size) == EmptyRun(api, start) ==>
      FailedRun(api, start + size) == FailedRun(api, start) + size
    decreases size
  {
    if size > 0 {
      RunsGrow(api, last, start, size - 1);
      assert !api(start + size - 1).Event?;
    }
  }

  method FetchAllEvents(api: Api, batchSize: nat, emptyLimit: nat, transientLimit: nat, ghost last: nat)
    returns (scan: Scan)
    requires batchSize > 0 && transientLimit > 0 && NothingAbove(api, last)
    ensures scan.Aborted? ==> exists id: nat :: FailedRun(api, id) >= transientLimit
    ensures scan.Complete? ==>
      && scan.stop >= 1 && EmptyRun(api, scan.stop) >= emptyLimit
      && scan.events == ListedBelow(api, scan.stop)
      && scan.probed == Verdicts(api, scan.stop)
    ensures scan.Complete? ==> forall id: nat :: id <= scan.stop ==> FailedRun(api, id) < transientLimit
  {
    var events: seq<nat>, probed: map<nat, bool>, empty, transient, start := [], map[], 0, 0, 1;
    while empty < emptyLimit
      invariant start >= 1
      invariant events == ListedBelow(api, start) && probed == Verdicts(api, start)
      invariant empty == EmptyRun(api, start) && transient == FailedRun(api, start) < transientLimit
      invariant forall id: nat :: id <= start ==> FailedRun(api, id) < transientLimit
      decreases if start <= last then last - start + 1 else 0, emptyLimit - empty, transientLimit - transient
    {
      ghost var from := start;
      var aborted;
      events, probed, empty, transient, aborted :=
        ScanBatch(api, start, batchSize, transientLimit, events, probed, empty, transient);
      if aborted {
        return Aborted;
      }
      start := start + batchSize;
      if from > last {
        RunsGrow(api, last, from, batchSize);
      }
    }
    scan := Complete(events, probed, start);
  }

  // ---- What a completed scan has seen -----------------------------------------------

  lemma {:induction false} RunHoldsUntilEvent(api: Api, stop: nat, id: nat)
    requires 1 <= stop <= id
    requires forall n: nat :: stop <= n < id ==> !api(n).Event?
    ensures EmptyRun(api, id) >= EmptyRun(api, stop)
    decreases id
  {
    if id > stop {
      RunHoldsUntilEvent(api, stop, id - 1);
      assert !api(id - 1).Event?;
    }
  }

  /** No event is preceded by a run of empty answers that long: then a completed
      scan has passed every event there is. */
  lemma {:induction false} NoEventBeyond(api: Api, stop: nat, emptyLimit: nat, id: nat)
    requires stop >= 1 && EmptyRun(api, stop) >= emptyLimit
    requires forall n: nat :: api(n).Event? ==> EmptyRun(api, n) < emptyLimit
    ensures id >= stop ==> !api(id).Event?
    decreases id
  {
    if id >= stop {
      forall n: nat | stop <= n < id
        ensures !api(n).Event?
      {
        NoEventBeyond(api, stop, emptyLimit, n);
      }
      RunHoldsUntilEvent(api, stop, id);
    }
  }

  lemma {:induction false} ListedAreListed(api: Api, stop: nat, id: nat)
    ensures id in ListedBelow(api, stop) <==> 1 <= id < stop && Listed(api(id))
    decreases stop
  {
    if stop > 1 {
      ListedAreListed(api, stop - 1, id);
    }
  }

  /** What the scan counts. The empty run below an id is of the confirmed-empty ids past the last
      event, failed probes not counted; the failed run is of the ids just below that all failed. */
  lemma {:induction false} RunsInWords(api: Api, id: nat, last: nat, limit: nat)
    requires last < id && (last == 0 || api(last).Event?)
    requires forall n: nat :: last < n < id ==> !api(n).Event?
    ensures EmptyRun(api, id) == |set n: nat | last < n < id && api(n) == NoEvent|
    ensures FailedRun(api, id) >= limit <==>
      limit < id && forall n: nat :: id - limit <= n < id ==> api(n) == Failed
    decreases id
  {
    FailedRunInWords(api, id, limit);
    var empties := set n: nat | last < n < id && api(n) == NoEvent;
    if id == last + 1 {
      assert empties == {};
    } else {
      RunsInWords(api, id - 1, last, 0);
      var before := set n: nat | last < n < id - 1 && api(n) == NoEvent;
      assert empties == before + if api(id - 1) == NoEvent then {id - 1} else {};
    }
  }

  lemma {:induction false} FailedRunInWords(api: Api, id: nat, limit: nat)
    requires 1 <= id
    ensures FailedRun(api, id) >= limit <==>
      limit < id && forall n: nat :: id - limit <= n < id ==> api(n) == Failed
    decreases id
  {
    if id > 1 && limit > 0 {
      FailedRunInWords(api, id - 1, limit - 1);
      if limit < id && api(id - 1) == Failed {
        assert (forall n: nat :: id - limit <= n < id ==> api(n) == Failed)
          <==> (forall n: nat :: id - 1 - (limit - 1) <= n < id - 1 ==> api(n) == Failed);
      }
    }
  }

  lemma {:induction false} ListedRise(api: Api, stop: nat)
    ensures forall i, j :: 0 <= i < j < |ListedBelow(api, stop)| ==>
      ListedBelow(api, stop)[i] < ListedBelow(api, stop)[j]
    decreases stop
  {
    if stop > 1 {
      ListedRise(api, stop - 1);
      var init := ListedBelow(api, stop - 1);
      forall i | 0 <= i < |init|
        ensures init[i] < stop - 1
      {
        ListedAreListed(api, stop - 1, init[i]);
        assert init[i] in init;
      }
    }
  }

  /** What a scan reports: the events with players or to come, in rising order; and of every id
      probed that answered, whether an event did. */
  lemma ReportsInWords(api: Api, stop: nat, id: nat)
    ensures id in ListedBelow(api, stop) <==>
      1 <= id < stop && api(id).Event? && (api(id).hasPlayers || api(id).isFuture)
    ensures forall i, j :: 0 <= i < j < |ListedBelow(api, stop)| ==>
      ListedBelow(api, stop)[i] < ListedBelow(api, stop)[j]
    ensures id in Verdicts(api, stop) <==> 1 <= id < stop && api(id) != Failed
    ensures id in Verdicts(api, stop) ==> (Verdicts(api, stop)[id] <==> api(id).Event?)
  {
    ListedAreListed(api, stop, id);
    ListedRise(api, stop);
  }

  /** A completed scan reports an event exactly when it is one to report, provided
      no gap in the ids outlasts the limit. */
  lemma ScanIsExhaustive(api: Api, scan: Scan, emptyLimit: nat, id: nat)
    requires scan.Complete? && scan.stop >= 1 && EmptyRun(api, scan.stop) >= emptyLimit
    requires scan.events == ListedBelow(api, scan.stop)
    requires forall n: nat :: api(n).Event? ==> EmptyRun(api, n) < emptyLimit
    requires id >= 1
    ensures id in scan.events <==> Listed(api(id))
  {
    ListedAreListed(api, scan.stop, id);
    NoEventBeyond(api, scan.stop, emptyLimit, id);
  }
}
