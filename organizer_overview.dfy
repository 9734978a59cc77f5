/**
  * The organizer dashboard's figures: event counts, attendee and revenue totals,
  * the chart of events from now on sorted by date, and the next-event card.
  */
module OrganizerOverview {
  import opened Common

  /** One of the organizer's events: a timestamp, a whole-unit price, the attendee count (`attendees?.length`) and capacity. */
  datatype OrgEvent = OrgEvent(date: int, price: int, attendees: Option<nat>, totalSlots: int)

  /** `event.attendees?.length || 0`. */
  function AttendeeCount(e: OrgEvent): nat
  {
    if e.attendees.Some? then e.attendees.value else 0
  }

  // ---------------------------------------------------------------- stats

  /** The four stat cards. */
  datatype Stats = Stats(totalEvents: nat, upcomingEvents: nat, totalAttendees: nat, totalRevenue: int)

  predicate IsUpcoming(e: OrgEvent, now: int)
  {
    e.date > now
  }

  /** `userEvents.filter(e => new Date(e.event_date) > new Date()).length`. */
  function CountUpcoming(events: seq<OrgEvent>, now: int): (n: nat)
    ensures n <= |events|
    ensures n == |events| <==> forall i :: 0 <= i < |events| ==> IsUpcoming(events[i], now)
  {
    FilterFull(events, (e: OrgEvent) => IsUpcoming(e, now));
    |Filter(events, (e: OrgEvent) => IsUpcoming(e, now))|
  }

  /** A filter keeps every element exactly when the predicate holds all along the list. */
  lemma {:induction false} FilterFull<T(!new)>(s: seq<T>, p: T -> bool)
    ensures |Filter(s, p)| == |s| <==> forall i :: 0 <= i < |s| ==> p(s[i])
  {
    if s != [] {
      FilterFull(s[1..], p);
      assert forall i :: 1 <= i < |s| ==> s[i] == s[1..][i - 1];
    }
  }

  /** `reduce((sum, event) => sum + (event.attendees?.length || 0), 0)`. */
  function SumAttendees(events: seq<OrgEvent>): nat
  {
    if events == [] then 0 else SumAttendees(events[..|events| - 1]) + AttendeeCount(events[|events| - 1])
  }

  /** `reduce((sum, event) => sum + event.price * (event.attendees?.length || 0), 0)`. */
  function SumRevenue(events: seq<OrgEvent>): int
  {
    if events == [] then 0 else SumRevenue(events[..|events| - 1]) + events[|events| - 1].price * AttendeeCount(events[|events| - 1])
  }

  /** Totals add up over any split of the list. */
  lemma {:induction false} SumsAppend(a: seq<OrgEvent>, b: seq<OrgEvent>)
    ensures SumAttendees(a + b) == SumAttendees(a) + SumAttendees(b)
    ensures SumRevenue(a + b) == SumRevenue(a) + SumRevenue(b)
    decreases |b|
  {
    if b == [] {
      assert a + b == a;
    } else {
      var b' := b[..|b| - 1];
      assert (a + b)[..|a + b| - 1] == a + b';
      SumsAppend(a, b');
    }
  }

  /** Every event's attendees are part of the total. */
  lemma {:induction false} SumAttendeesBound(events: seq<OrgEvent>, i: nat)
    requires i < |events|
    ensures AttendeeCount(events[i]) <= SumAttendees(events)
    decreases |events|
  {
    if i < |events| - 1 {
      SumAttendeesBound(events[..|events| - 1], i);
    }
  }

  /** When every event has the same price, revenue is that price times the attendees. */
  lemma {:induction false} UniformPriceRevenue(events: seq<OrgEvent>, price: int)
    requires forall i :: 0 <= i < |events| ==> events[i].price == price
    ensures SumRevenue(events) == price * SumAttendees(events)
    decreases |events|
  {
    if events != [] {
      UniformPriceRevenue(events[..|events| - 1], price);
      var last := events[|events| - 1];
      calc {
        SumRevenue(events);
        price * SumAttendees(events[..|events| - 1]) + price * AttendeeCount(last);
        { assert price * (SumAttendees(events[..|events| - 1]) + AttendeeCount(last))
            == price * SumAttendees(events[..|events| - 1]) + price * AttendeeCount(last); }
        price * SumAttendees(events);
      }
    }
  }

  /** The stat cards for a list of events, measured at `now`. */
  function ComputeStats(events: seq<OrgEvent>, now: int): (s: Stats)
    ensures s.totalEvents == |events| && s.upcomingEvents <= s.totalEvents
  {
    Stats(|events|, CountUpcoming(events, now), SumAttendees(events), SumRevenue(events))
  }

  // ---------------------------------------------------------------- the chart

  /** `new Date(event.event_date) >= new Date()`. */
  predicate FromNowOn(e: OrgEvent, now: int)
  {
    e.date >= now
  }

  predicate SortedByDate(s: seq<OrgEvent>)
  {
    forall i, j :: 0 <= i < j < |s| ==> s[i].date <= s[j].date
  }

  /** Put `x` after every element whose date is not later than its own. */
  function Insert(x: OrgEvent, s: seq<OrgEvent>): (r: seq<OrgEvent>)
    ensures multiset(r) == multiset(s) + multiset{x}
    ensures |r| == |s| + 1
    decreases |s|
  {
    if s == [] then [x]
    else if x.date < s[|s| - 1].date then
      assert s == s[..|s| - 1] + [s[|s| - 1]];
      Insert(x, s[..|s| - 1]) + [s[|s| - 1]]
    else s + [x]
  }

  /** `sort((a, b) => date(a) - date(b))`: a stable sort by date. */
  function SortByDate(s: seq<OrgEvent>): (r: seq<OrgEvent>)
    ensures multiset(r) == multiset(s)
    ensures |r| == |s|
    decreases |s|
  {
    if s == [] then []
    else
      assert s == s[..|s| - 1] + [s[|s| - 1]];
      Insert(s[|s| - 1], SortByDate(s[..|s| - 1]))
  }

  lemma {:induction false} InsertSorted(x: OrgEvent, s: seq<OrgEvent>)
    requires SortedByDate(s)
    ensures SortedByDate(Insert(x, s))
    decreases |s|
  {
    if s != [] && x.date < s[|s| - 1].date {
      var init := s[..|s| - 1];
      InsertSorted(x, init);
      var r := Insert(x, init);
      forall k | 0 <= k < |r| ensures r[k].date <= s[|s| - 1].date {
        assert r[k] in multiset(r);
        assert r[k] in multiset(init) || r[k] == x;
        if r[k] != x {
          var m :| 0 <= m < |init| && init[m] == r[k];
        }
      }
    }
  }

  /** The sort yields a date-ordered list. */
  lemma {:induction false} SortSorted(s: seq<OrgEvent>)
    ensures SortedByDate(SortByDate(s))
    decreases |s|
  {
    if s != [] {
      SortSorted(s[..|s| - 1]);
      InsertSorted(s[|s| - 1], SortByDate(s[..|s| - 1]));
    }
  }

  /** The test "dated `d`". */
  function DatedOn(d: int): OrgEvent -> bool
  {
    (e: OrgEvent) => e.date == d
  }

  /** Events on day `d`, in list order. */
  function OnDate(s: seq<OrgEvent>, d: int): seq<OrgEvent>
  {
    Filter(s, DatedOn(d))
  }

  /** A one-event list keeps its event exactly when it is dated `d`. */
  lemma OnDateSingle(x: OrgEvent, d: int)
    ensures OnDate([x], d) == if x.date == d then [x] else []
  {
    assert [x][1..] == [];
  }

  /** Appending one event adds it to the events of its own date only. */
  lemma OnDateSnoc(r: seq<OrgEvent>, x: OrgEvent, d: int)
    ensures OnDate(r + [x], d) == OnDate(r, d) + (if x.date == d then [x] else [])
  {
    FilterAppend(r, [x], DatedOn(d));
    OnDateSingle(x, d);
  }

  lemma {:induction false} InsertStable(x: OrgEvent, s: seq<OrgEvent>, d: int)
    ensures OnDate(Insert(x, s), d) == OnDate(s, d) + (if x.date == d then [x] else [])
    decreases |s|
  {
    if s == [] {
      assert Insert(x, s) == [] + [x];
      OnDateSnoc([], x, d);
    } else if x.date < s[|s| - 1].date {
      var init, last := s[..|s| - 1], s[|s| - 1];
      assert s == init + [last];
      assert Insert(x, s) == Insert(x, init) + [last];
      InsertStable(x, init, d);
      OnDateSnoc(Insert(x, init), last, d);
      OnDateSnoc(init, last, d);
    } else {
      assert Insert(x, s) == s + [x];
      OnDateSnoc(s, x, d);
    }
  }

  /** The sort is stable: events on the same date keep their list order. */
  lemma {:induction false} SortStable(s: seq<OrgEvent>, d: int)
    ensures OnDate(SortByDate(s), d) == OnDate(s, d)
    decreases |s|
  {
    if s == [] {
      assert SortByDate(s) == [];
    } else {
      var init := s[..|s| - 1];
      var last := s[|s| - 1];
      SortStable(init, d);
      InsertStable(last, SortByDate(init), d);
      OnDateSingle(last, d);
      assert s == init + [last];
      FilterAppend(init, [last], DatedOn(d));
    }
  }

  /** One bar of the chart; the `MMM d` label is represented by the event's timestamp. */
  datatype ChartEntry = ChartEntry(date: int, attendees: nat, revenue: int, capacity: int)

  function ToEntry(e: OrgEvent): ChartEntry
  {
    ChartEntry(e.date, AttendeeCount(e), e.price * AttendeeCount(e), e.totalSlots)
  }

  /** The events the chart shows: from now on, sorted by date. */
  function ChartEvents(events: seq<OrgEvent>, now: int): seq<OrgEvent>
  {
    SortByDate(Filter(events, (e: OrgEvent) => FromNowOn(e, now)))
  }

  /** The chart data: one entry per shown event, in shown order. */
  function ChartData(events: seq<OrgEvent>, now: int): (c: seq<ChartEntry>)
    ensures |c| == |ChartEvents(events, now)|
    ensures forall i :: 0 <= i < |c| ==> c[i] == ToEntry(ChartEvents(events, now)[i])
  {
    var shown := ChartEvents(events, now);
    seq(|shown|, i requires 0 <= i < |shown| => ToEntry(shown[i]))
  }

  /**
    * The chart shows exactly the events dated from now on, each as often as it
    * occurs, ascending by date, with same-day events in list order.
    */
  lemma ChartEventsSpec(events: seq<OrgEvent>, now: int, d: int)
    ensures multiset(ChartEvents(events, now)) == multiset(Filter(events, (e: OrgEvent) => FromNowOn(e, now)))
    ensures forall e :: e in ChartEvents(events, now) <==> e in events && e.date >= now
    ensures SortedByDate(ChartEvents(events, now))
    ensures OnDate(ChartEvents(events, now), d) == OnDate(Filter(events, (e: OrgEvent) => FromNowOn(e, now)), d)
  {
    var kept := Filter(events, (e: OrgEvent) => FromNowOn(e, now));
    SortSorted(kept);
    SortStable(kept, d);
    forall e ensures e in ChartEvents(events, now) <==> e in kept {
      assert e in ChartEvents(events, now) <==> e in multiset(ChartEvents(events, now));
      assert e in kept <==> e in multiset(kept);
    }
  }

  // ---------------------------------------------------------------- next event

  /** The "next event" card: the first chart entry's date, or "No events". */
  datatype NextEvent = NoEvents | NextOn(date: int)

  function NextEventDate(chart: seq<ChartEntry>): NextEvent
  {
    if |chart| > 0 then NextOn(chart[0].date) else NoEvents
  }

  /** The card names the earliest event from now on, and says "No events" only when there is none. */
  lemma NextEventIsEarliest(events: seq<OrgEvent>, now: int)
    ensures NextEventDate(ChartData(events, now)).NoEvents? <==> forall e :: e in events ==> e.date < now
    ensures NextEventDate(ChartData(events, now)).NextOn? ==>
              var d := NextEventDate(ChartData(events, now)).date;
              d >= now && (exists e :: e in events && e.date == d)
              && forall e :: e in events && e.date >= now ==> d <= e.date
  {
    var shown := ChartEvents(events, now);
    ChartEventsSpec(events, now, 0);
    if |shown| > 0 {
      var first := shown[0];
      assert first in shown;
      forall e | e in events && e.date >= now ensures first.date <= e.date {
        assert e in shown;
        var k :| 0 <= k < |shown| && shown[k] == e;
      }
    }
  }

  // ---------------------------------------------------------------- the page

  /** What the dashboard holds after its load. */
  datatype Overview = Overview(stats: Stats, chart: seq<ChartEntry>, error: string)

  const InitialStats := Stats(0, 0, 0, 0)

  /**
    * `fetchData`: with the organizer's events, the stats and the chart; on any
    * failure the zero stats stay and the error reads `err.message` or a fallback.
    */
  function LoadOverview(events: Option<seq<OrgEvent>>, failure: Option<string>, now: int): (o: Overview)
    ensures events.Some? ==> o.stats == ComputeStats(events.value, now) && o.chart == ChartData(events.value, now)
    ensures events.Some? ==> o.stats.totalEvents == |events.value| && |o.chart| <= |events.value| && o.error == ""
    ensures events.None? ==> o.stats == InitialStats && o.chart == []
    ensures events.None? ==> o.error == Or(failure, "Failed to load dashboard data") && o.error != ""
  {
    match events
    case Some(es) =>
      assert |ChartData(es, now)| <= |es|;
      Overview(ComputeStats(es, now), ChartData(es, now), "")
    case None => Overview(InitialStats, [], Or(failure, "Failed to load dashboard data"))
  }

  /**
    * The loaded page is consistent: its chart holds one entry per event dated from
    * now on, the upcoming card never exceeds the total, and the next-event card
    * reads "No events" exactly when no event is dated from now on.
    */
  lemma LoadedOverviewConsistent(es: seq<OrgEvent>, now: int)
    ensures var o := LoadOverview(Some(es), None, now);
      && |o.chart| == |Filter(es, (e: OrgEvent) => FromNowOn(e, now))|
      && o.stats.upcomingEvents <= o.stats.totalEvents == |es|
      && (NextEventDate(o.chart).NoEvents? <==> forall e :: e in es ==> e.date < now)
  {
    ChartEventsSpec(es, now, 0);
    var shown := ChartEvents(es, now);
    assert |multiset(shown)| == |multiset(Filter(es, (e: OrgEvent) => FromNowOn(e, now)))|;
    NextEventIsEarliest(es, now);
  }
}
