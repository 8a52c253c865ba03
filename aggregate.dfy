/** The aggregator: `getIcs` and `getAll` as the sequential fold that the
    single merge goroutine performs. Workers finish in some order; for each
    finished worker, the entries it hands over (events on one channel,
    timezones on the other) are appended to the one calendar. */
module Aggregate {
  import opened Wrappers
  import opened Ical
  import opened Fetch
  import opened Index
  import opened Seqs

  /** What one worker came to for its locator. */
  datatype Retrieval = FetchFailed(err: GetError) | ParseFailed | Parsed(entries: seq<Entry>)

  /** The kinds the merge path accepts; every other kind is logged and dropped. */
  predicate Mergeable(e: Entry)
  {
    e.Event? || e.Timezone?
  }

  /** The entries of a parsed resource that a worker hands to the merge
      path, in the order it sends them: every event and timezone, each as
      often as it occurs, and nothing else. */
  function Kept(es: seq<Entry>): seq<Entry>
    decreases |es|
  {
    if es == [] then []
    else
      var last := es[|es| - 1];
      Kept(es[..|es| - 1]) + (if Mergeable(last) then [last] else [])
  }

  /** A worker sends every event and timezone of its resource, each as
      often as it occurs, and nothing else. */
  lemma {:induction false} KeptCount(es: seq<Entry>, e: Entry)
    ensures multiset(Kept(es))[e] == if Mergeable(e) then multiset(es)[e] else 0
    decreases |es|
  {
    if es != [] {
      var init, last := es[..|es| - 1], es[|es| - 1];
      assert es == init + [last];
      assert multiset(es) == multiset(init) + multiset{last};
      KeptCount(init, e);
    }
  }

  /** A resource holding only events and timezones is handed over whole, in order. */
  lemma {:induction false} KeptAllMergeable(es: seq<Entry>)
    requires forall i :: 0 <= i < |es| ==> Mergeable(es[i])
    ensures Kept(es) == es
    decreases |es|
  {
    if es != [] {
      KeptAllMergeable(es[..|es| - 1]);
      assert es == es[..|es| - 1] + [es[|es| - 1]];
    }
  }

  /** The type names a worker logs as unhandled, in order. */
  function Unhandled(es: seq<Entry>): seq<string>
    decreases |es|
  {
    if es == [] then []
    else
      var last := es[|es| - 1];
      Unhandled(es[..|es| - 1]) + (if Mergeable(last) then [] else [last.Type()])
  }

  /** What one resource adds to the calendar: nothing unless it was both
      fetched and parsed. */
  function Contribution(r: Retrieval): seq<Entry>
  {
    if r.Parsed? then Kept(r.entries) else []
  }

  /** The calendar built from resources that finish in the order given. */
  function Aggregate(rs: seq<Retrieval>): seq<Entry>
  {
    Concat(Contribution, rs)
  }

  /** The entries of one resource, when it was parsed. */
  function EntriesOf(r: Retrieval): seq<Entry>
  {
    if r.Parsed? then r.entries else []
  }

  /** Every entry of every parsed resource, resource after resource. */
  function AllEntries(rs: seq<Retrieval>): seq<Entry>
  {
    Concat(EntriesOf, rs)
  }

  /** An entry is among all entries exactly when some parsed resource holds it. */
  lemma {:induction false} AllEntriesMembership(rs: seq<Retrieval>, e: Entry)
    ensures e in AllEntries(rs) <==> exists i :: 0 <= i < |rs| && rs[i].Parsed? && e in rs[i].entries
  {
    if rs != [] {
      AllEntriesMembership(rs[1..], e);
      if e in AllEntries(rs[1..]) {
        var i :| 0 <= i < |rs[1..]| && rs[1..][i].Parsed? && e in rs[1..][i].entries;
        assert rs[i + 1] == rs[1..][i];
      }
      if exists i :: 0 <= i < |rs| && rs[i].Parsed? && e in rs[i].entries {
        var i :| 0 <= i < |rs| && rs[i].Parsed? && e in rs[i].entries;
        if i > 0 { assert rs[1..][i - 1] == rs[i]; }
      }
    }
  }

  /** One worker: fetch the resource URL built from the locator, then
      parse the body. `exchange` is the network, `parse` the calendar
      parser; a parse error gives no entries. */
  function Worker(index: Url, locator: string, exchange: Url -> Exchange,
                  parse: seq<byte> -> Option<seq<Entry>>): (r: Retrieval)
    ensures var x := exchange(ResourceUrl(index, locator));
            r.Parsed? ==> x.Answered? && 200 <= x.status < 300 && x.body.Some? &&
                          parse(x.body.value) == Some(r.entries)
    ensures var g := Get(exchange(ResourceUrl(index, locator)));
            (r.FetchFailed? <==> g.Err?) && (r.FetchFailed? ==> r.err == g.error)
    ensures var g := Get(exchange(ResourceUrl(index, locator)));
            r.ParseFailed? <==> g.Ok? && parse(g.value).None?
  {
    match Get(exchange(ResourceUrl(index, locator)))
    case Err(e) => FetchFailed(e)
    case Ok(body) =>
      match parse(body)
      case None => ParseFailed
      case Some(entries) => Parsed(entries)
  }

  /** The retrievals of all locators, in document order. */
  function Outcomes(index: Url, urls: seq<string>, exchange: Url -> Exchange,
                    parse: seq<byte> -> Option<seq<Entry>>): (rs: seq<Retrieval>)
    ensures |rs| == |urls|
    ensures forall i :: 0 <= i < |urls| ==> rs[i] == Worker(index, urls[i], exchange, parse)
  {
    seq(|urls|, i requires 0 <= i < |urls| => Worker(index, urls[i], exchange, parse))
  }

  // ---------------------------------------------------------------- the worker

  /** The worker's loop over a resource's entries: events and timezones are
      sent to the merge path in their order, every other kind is logged by
      its type name; a resource that failed sends nothing. */
  method Dispatch(r: Retrieval) returns (sent: seq<Entry>, unhandled: seq<string>)
    ensures sent == Contribution(r)
    ensures unhandled == if r.Parsed? then Unhandled(r.entries) else []
  {
    sent, unhandled := [], [];
    if !r.Parsed? {
      return;
    }
    var es := r.entries;
    for i := 0 to |es|
      invariant sent == Kept(es[..i])
      invariant unhandled == Unhandled(es[..i])
    {
      assert es[..i + 1][..i] == es[..i];
      var e := es[i];
      if e.Event? {
        sent := sent + [e];
      } else if e.Timezone? {
        sent := sent + [e];
      } else {
        unhandled := unhandled + [e.Type()];
      }
    }
    assert es[..|es|] == es;
  }

  // ---------------------------------------------------------------- the calendar

  /** `ical.Calendar`, as the sequence of its entries. */
  class Calendar {
    var entries: seq<Entry>

    /** `ical.NewCalendar`. */
    constructor ()
      ensures entries == []
    {
      entries := [];
    }

    /** `Calendar.AddEntry`: appends. */
    method AddEntry(e: Entry)
      modifies this
      ensures entries == old(entries) + [e]
    {
      entries := entries + [e];
    }
  }

  /** The merge goroutine's loop while one worker's entries come in: each
      received event or timezone is added to the calendar. */
  method Receive(cal: Calendar, sent: seq<Entry>)
    modifies cal
    ensures cal.entries == old(cal.entries) + sent
  {
    for j := 0 to |sent|
      invariant cal.entries == old(cal.entries) + sent[..j]
    {
      cal.AddEntry(sent[j]);
      assert sent[..j + 1] == sent[..j] + [sent[j]];
    }
    assert sent[..|sent|] == sent;
  }

  /** The stop of the merge goroutine as written: once every worker has
      sent, `pending` is what still waits in the two buffered channels,
      and `select` may take the stop signal after any number `taken` of
      further receives. What is left in the buffers is never added. */
  function MergedBeforeStop(pending: seq<Entry>, taken: nat): (got: seq<Entry>)
    requires taken <= |pending|
    ensures |got| == taken && got + pending[taken..] == pending
  {
    pending[..taken]
  }

  /** An event sent before the stop signal, still buffered when `select`
      picks the stop, is missing from the calendar. */
  lemma EarlyStopLosesEntry()
    ensures Event(1) !in MergedBeforeStop([Event(1)], 0)
  {
  }

  /** Only a stop taken after the buffers are drained keeps every entry;
      that drained stop is what `Receive` and `GetIcs` model. */
  lemma DrainedStopKeepsAll(pending: seq<Entry>, taken: nat)
    requires taken <= |pending|
    ensures multiset(MergedBeforeStop(pending, taken)) == multiset(pending) <==> taken == |pending|
  {
    var got := MergedBeforeStop(pending, taken);
    assert multiset(pending) == multiset(got) + multiset(pending[taken..]);
    if multiset(got) == multiset(pending) {
      assert |multiset(pending[taken..])| == 0;
    }
  }

  /** `getIcs` run sequentially: one worker per locator, the workers
      finishing in `order`, and each finished worker's entries appended to
      the calendar by the merge path. Whatever the order, the calendar holds
      the same entries as if the workers had finished in document order. */
  method GetIcs(index: Url, urls: seq<string>, exchange: Url -> Exchange,
                parse: seq<byte> -> Option<seq<Entry>>, order: seq<nat>)
    returns (cal: Calendar)
    requires IsOrdering(order, |urls|)
    ensures fresh(cal)
    ensures InRange(order, |urls|)
    ensures cal.entries == Aggregate(Pick(Outcomes(index, urls, exchange, parse), order))
    ensures multiset(cal.entries) == multiset(Aggregate(Outcomes(index, urls, exchange, parse)))
  {
    OrderingInRange(order, |urls|);
    ghost var rs := Outcomes(index, urls, exchange, parse);
    cal := new Calendar();
    for k := 0 to |order|
      invariant InRange(order[..k], |rs|)
      invariant cal.entries == Aggregate(Pick(rs, order[..k]))
    {
      ArrivalStep(rs, order, k);
      var r := Worker(index, urls[order[k]], exchange, parse);
      var sent, _ := Dispatch(r);
      Receive(cal, sent);
    }
    assert order[..|order|] == order;
    OrderingPermutes(rs, order);
    AggregatePermutation(Pick(rs, order), rs);
  }

  /** One more finished worker adds its contribution at the end. */
  lemma ArrivalStep(rs: seq<Retrieval>, order: seq<nat>, k: nat)
    requires InRange(order, |rs|) && k < |order|
    ensures InRange(order[..k], |rs|) && InRange(order[..k + 1], |rs|)
    ensures Aggregate(Pick(rs, order[..k + 1]))
         == Aggregate(Pick(rs, order[..k])) + Contribution(rs[order[k]])
  {
    InRangeSlice(order, |rs|, 0, k);
    InRangeSlice(order, |rs|, 0, k + 1);
    var r := rs[order[k]];
    assert Pick(rs, order[..k + 1]) == Pick(rs, order[..k]) + [r];
    ConcatAppend(Contribution, Pick(rs, order[..k]), [r]);
    ConcatSingle(Contribution, r);
  }

  datatype PipelineError = IndexFetchFailed(err: GetError) | IndexUndecodable

  /** The locators of the index page, when it was fetched and decoded:
      one per named row of a node table, never more than there are
      node-table rows. */
  function IndexLocators(index: Url, exchange: Url -> Exchange,
                         decode: seq<byte> -> Option<Html>): (r: Option<seq<string>>)
    ensures var x := exchange(index);
            r.Some? <==> x.Answered? && 200 <= x.status < 300 && x.body.Some? &&
                         decode(x.body.value).Some?
    ensures r.Some? ==>
              var page := decode(exchange(index).body.value).value.body.section;
              r.value == Locators(page) && |r.value| == NamedNodeRows(page) <= NodeRows(page)
  {
    match Get(exchange(index))
    case Err(_) => None
    case Ok(body) =>
      match decode(body)
      case None => None
      case Some(x) =>
        LocatorCount(x.body.section);
        Some(Locators(x.body.section))
  }

  /** `getAll` without the final rendering: fetch and decode the index page
      (`decode` is the XML decoder), extract its locators, and aggregate
      their calendars. Only the index can make the whole request fail. */
  method GetAll(index: Url, exchange: Url -> Exchange, decode: seq<byte> -> Option<Html>,
                parse: seq<byte> -> Option<seq<Entry>>, order: seq<nat>)
    returns (r: Result<Calendar, PipelineError>)
    requires IndexLocators(index, exchange, decode).Some? ==>
               IsOrdering(order, |IndexLocators(index, exchange, decode).value|)
    ensures Get(exchange(index)).Err? ==> r == Err(IndexFetchFailed(Get(exchange(index)).error))
    ensures Get(exchange(index)).Ok? && decode(Get(exchange(index)).value).None? ==>
              r == Err(IndexUndecodable)
    ensures r.Ok? <==> IndexLocators(index, exchange, decode).Some?
    ensures r.Ok? ==>
              multiset(r.value.entries)
              == multiset(Aggregate(Outcomes(index, IndexLocators(index, exchange, decode).value,
                                             exchange, parse)))
  {
    var b := Get(exchange(index));
    if b.Err? {
      return Err(IndexFetchFailed(b.error));
    }
    var x := decode(b.value);
    if x.None? {
      return Err(IndexUndecodable);
    }
    var urls := GetIndex(x.value);
    var cal := GetIcs(index, urls, exchange, parse, order);
    return Ok(cal);
  }

  // ---------------------------------------------------------------- properties

  /** Order independence: resources arriving in any order build calendars
      with the same entries, each as often. */
  lemma AggregatePermutation(a: seq<Retrieval>, b: seq<Retrieval>)
    requires multiset(a) == multiset(b)
    ensures multiset(Aggregate(a)) == multiset(Aggregate(b))
  {
    ConcatPermutation(Contribution, a, b);
  }

  lemma {:induction false} KeptAppend(a: seq<Entry>, b: seq<Entry>)
    ensures Kept(a + b) == Kept(a) + Kept(b)
    decreases |b|
  {
    if b == [] {
      assert a + b == a;
    } else {
      var init := b[..|b| - 1];
      assert (a + b)[..|a + b| - 1] == a + init;
      assert (a + b)[|a + b| - 1] == b[|b| - 1];
      KeptAppend(a, init);
    }
  }

  /** The calendar is exactly the events and timezones of every resource
      that was fetched and parsed; failed resources and other kinds add
      nothing. */
  lemma {:induction false} AggregateIsKeptEntries(rs: seq<Retrieval>)
    ensures Aggregate(rs) == Kept(AllEntries(rs))
  {
    if rs != [] {
      AggregateIsKeptEntries(rs[1..]);
      KeptAppend(EntriesOf(rs[0]), AllEntries(rs[1..]));
    }
  }

  /** The same, entry by entry: an entry is in the calendar exactly when it
      is an event or a timezone of some parsed resource, and it is there as
      often as those resources hold it. */
  lemma AggregateContents(rs: seq<Retrieval>, e: Entry)
    ensures multiset(Aggregate(rs))[e] == if Mergeable(e) then multiset(AllEntries(rs))[e] else 0
    ensures e in Aggregate(rs) <==>
              Mergeable(e) && exists i :: 0 <= i < |rs| && rs[i].Parsed? && e in rs[i].entries
  {
    AggregateIsKeptEntries(rs);
    KeptCount(AllEntries(rs), e);
    AllEntriesMembership(rs, e);
    assert e in Aggregate(rs) <==> multiset(Aggregate(rs))[e] > 0;
    assert e in AllEntries(rs) <==> multiset(AllEntries(rs))[e] > 0;
  }

  /** A resource whose fetch or parse failed changes nothing, wherever it
      finishes. */
  lemma FailedResourceIgnored(before: seq<Retrieval>, r: Retrieval, after: seq<Retrieval>)
    requires !r.Parsed?
    ensures Aggregate(before + [r] + after) == Aggregate(before + after)
  {
    ConcatAppend(Contribution, before + [r], after);
    ConcatAppend(Contribution, before, [r]);
    ConcatAppend(Contribution, before, after);
    ConcatSingle(Contribution, r);
  }

  /** Two resources, one holding events E1 and E2 and one holding timezone
      Z1, give the calendar {E1, E2, Z1} whichever finishes first. */
  lemma TwoResourcesExample()
    ensures multiset(Aggregate([Parsed([Event(1), Event(2)]), Parsed([Timezone(1)])]))
         == multiset{Event(1), Event(2), Timezone(1)}
    ensures multiset(Aggregate([Parsed([Timezone(1)]), Parsed([Event(1), Event(2)])]))
         == multiset{Event(1), Event(2), Timezone(1)}
  {
    var es, zs := [Event(1), Event(2)], [Timezone(1)];
    KeptAllMergeable(es);
    KeptAllMergeable(zs);
    InTwoOrders(Parsed(es), Parsed(zs));
    assert es + zs == [Event(1), Event(2), Timezone(1)];
    assert zs + es == [Timezone(1), Event(1), Event(2)];
  }

  /** Two finished resources, in either order. */
  lemma InTwoOrders(p: Retrieval, q: Retrieval)
    ensures Aggregate([p, q]) == Contribution(p) + Contribution(q)
    ensures Aggregate([q, p]) == Contribution(q) + Contribution(p)
  {
    ConcatSingle(Contribution, p);
    ConcatSingle(Contribution, q);
    ConcatAppend(Contribution, [p], [q]);
    ConcatAppend(Contribution, [q], [p]);
    assert [p] + [q] == [p, q];
    assert [q] + [p] == [q, p];
  }


}
