/** The analytics page: the counts it derives from the fetched events. */
module Analytics {
  import opened Wrappers
  import opened Strings
  import opened Tally
  import opened Paging

  /** One analytics record as the backend sends it; `referrer` may be
      missing. */
  datatype Event = Event(kind: string, device: string, linkId: string, referrer: Option<string>)

  /** The `analytics` state: the two totals and the four counting objects. */
  datatype Summary = Summary(
    views: nat,
    clicks: nat,
    devices: seq<Bucket>,
    links: seq<Bucket>,
    shops: seq<Bucket>,
    referrers: seq<Bucket>)

  /** `data.filter(a => a.type === kind).length`. */
  function CountKind(events: seq<Event>, kind: string): (n: nat)
    ensures n <= |events|
    ensures n == 0 <==> forall i :: 0 <= i < |events| ==> events[i].kind != kind
    ensures n == |events| <==> forall i :: 0 <= i < |events| ==> events[i].kind == kind
  {
    if events == [] then 0
    else
      assert forall i :: 1 <= i < |events| ==> events[i] == events[1..][i - 1];
      (if events[0].kind == kind then 1 else 0) + CountKind(events[1..], kind)
  }

  /** The device of each event, in order. */
  function Devices(events: seq<Event>): (r: seq<string>)
    ensures |r| == |events| && forall i :: 0 <= i < |r| ==> r[i] == events[i].device
  {
    seq(|events|, i requires 0 <= i < |events| => events[i].device)
  }

  /** `curr.referrer || 'direct'`. */
  function ReferrerKey(e: Event): (k: string)
    ensures k != ""
    ensures e.referrer.Some? && e.referrer.value != "" ==> k == e.referrer.value
    ensures e.referrer.None? || e.referrer == Some("") ==> k == "direct"
  {
    match e.referrer
    case None => "direct"
    case Some(r) => if r == "" then "direct" else r
  }

  /** The referrer key of each event, in order. */
  function Referrers(events: seq<Event>): (r: seq<string>)
    ensures |r| == |events| && forall i :: 0 <= i < |r| ==> r[i] == ReferrerKey(events[i])
  {
    seq(|events|, i requires 0 <= i < |events| => ReferrerKey(events[i]))
  }

  /** The link id of each event, in order. */
  function LinkIds(events: seq<Event>): (r: seq<string>)
    ensures |r| == |events| && forall i :: 0 <= i < |r| ==> r[i] == events[i].linkId
  {
    seq(|events|, i requires 0 <= i < |events| => events[i].linkId)
  }

  /** The link ids of `data.filter(a => a.linkId.includes(word))`, in order. */
  function LinkIdsContaining(events: seq<Event>, word: string): (r: seq<string>)
    ensures |r| <= |events|
    ensures forall i :: 0 <= i < |r| ==> Contains(r[i], word)
  {
    if events == [] then []
    else
      var head := if Contains(events[0].linkId, word) then [events[0].linkId] else [];
      var tail := LinkIdsContaining(events[1..], word);
      assert forall i :: |head| <= i < |head + tail| ==> (head + tail)[i] == tail[i - |head|];
      head + tail
  }

  /** The aggregation of `fetchAnalytics` (Analytics.js lines 17-34); the
      searched path (lines 48-65) runs the same code on `data.data`. */
  function Summarize(events: seq<Event>): (r: Summary)
    ensures r.views + r.clicks <= |events|
    ensures Sum(r.devices) == |events| && Sum(r.referrers) == |events|
    ensures Sum(r.links) <= |events| && Sum(r.shops) <= |events|
  {
    KindCounts(events);
    Summary(
      views := CountKind(events, "view"),
      clicks := CountKind(events, "click"),
      devices := Count(Devices(events)),
      links := Count(LinkIdsContaining(events, "link")),
      shops := Count(LinkIdsContaining(events, "shop")),
      referrers := Count(Referrers(events)))
  }

  /** The state after `fetchAnalytics`: unchanged when the request fails. */
  function AfterFetch(current: Summary, response: Option<seq<Event>>): (r: Summary)
    ensures response.None? ==> r == current
    ensures response.Some? ==> r == Summarize(response.value)
    ensures response.Some? ==> r.views + r.clicks <= |response.value|
  {
    match response
    case None => current
    case Some(events) => Summarize(events)
  }

  /** The body of an analytics search response. */
  datatype SearchResponse = SearchResponse(data: seq<Event>, pagination: Pagination)

  /** The `analytics` state after `fetchSearchedAnalytics` (the pagination part
      goes to `Pager.Receive`); the same fold as the unsearched path. */
  function AfterSearch(current: Summary, response: Option<SearchResponse>): (r: Summary)
    ensures response.None? ==> r == current
    ensures response.Some? ==> r == AfterFetch(current, Some(response.value.data))
  {
    match response
    case None => current
    case Some(resp) => Summarize(resp.data)
  }

  /** "Clicks on Shops": `Object.values(analytics.shops).reduce((a, b) => a + b, 0)`. */
  function ShopClickTotal(s: Summary): (n: nat)
    ensures forall k :: Lookup(s.shops, k) <= n
  {
    LookupAtMostSum(s.shops);
    Sum(s.shops)
  }

  /** Views and clicks are disjoint counts: together at most the number of
      events, and exactly that many when every event is a view or a click. */
  lemma ViewsAndClicks(events: seq<Event>)
    ensures Summarize(events).views + Summarize(events).clicks <= |events|
    ensures Summarize(events).views + Summarize(events).clicks == |events| <==>
      forall i :: 0 <= i < |events| ==> events[i].kind == "view" || events[i].kind == "click"
  {
    KindCounts(events);
  }

  lemma {:induction false} KindCounts(events: seq<Event>)
    ensures CountKind(events, "view") + CountKind(events, "click") <= |events|
    ensures CountKind(events, "view") + CountKind(events, "click") == |events| <==>
      forall i :: 0 <= i < |events| ==> events[i].kind == "view" || events[i].kind == "click"
  {
    if events != [] {
      KindCounts(events[1..]);
      assert forall i :: 1 <= i < |events| ==> events[i] == events[1..][i - 1];
    }
  }

  /** The device counts: one key per device seen, each with its number of
      events, all adding up to the number of events. */
  lemma DeviceCounts(events: seq<Event>)
    ensures Sum(Summarize(events).devices) == |events|
    ensures WellFormed(Summarize(events).devices)
    ensures forall d :: Lookup(Summarize(events).devices, d) == Occurrences(Devices(events), d)
    ensures forall d :: HasKey(Summarize(events).devices, d) <==> exists i :: 0 <= i < |events| && events[i].device == d
  {
    var ds := Devices(events);
    CountWellFormed(ds);
    forall d ensures Lookup(Count(ds), d) == Occurrences(ds, d) {
      CountLookup(ds, d);
    }
    forall d ensures d in ds <==> exists i :: 0 <= i < |events| && events[i].device == d {
      if d in ds {
        var i :| 0 <= i < |ds| && ds[i] == d;
        assert events[i].device == d;
      }
    }
  }

  /** The referrer counts add up to the number of events, and every event
      without a referrer is counted under "direct". */
  lemma ReferrerCounts(events: seq<Event>)
    ensures Sum(Summarize(events).referrers) == |events|
    ensures WellFormed(Summarize(events).referrers)
    ensures forall r :: Lookup(Summarize(events).referrers, r) == Occurrences(Referrers(events), r)
    ensures (exists i :: 0 <= i < |events| && (events[i].referrer.None? || events[i].referrer == Some(""))) ==>
      HasKey(Summarize(events).referrers, "direct")
  {
    var rs := Referrers(events);
    CountWellFormed(rs);
    forall r ensures Lookup(Count(rs), r) == Occurrences(rs, r) {
      CountLookup(rs, r);
    }
    if exists i :: 0 <= i < |events| && (events[i].referrer.None? || events[i].referrer == Some("")) {
      var i :| 0 <= i < |events| && (events[i].referrer.None? || events[i].referrer == Some(""));
      assert rs[i] == "direct";
    }
  }

  /** Filtering by `includes(word)` keeps an id's occurrences when the id
      contains the word and drops them all otherwise. */
  lemma {:induction false} ContainingOccurrences(events: seq<Event>, word: string, k: string)
    ensures Occurrences(LinkIdsContaining(events, word), k) ==
      if Contains(k, word) then Occurrences(LinkIds(events), k) else 0
  {
    if events != [] {
      ContainingOccurrences(events[1..], word, k);
      var head := if Contains(events[0].linkId, word) then [events[0].linkId] else [];
      OccurrencesAppend(head, LinkIdsContaining(events[1..], word), k);
      assert LinkIds(events) == [events[0].linkId] + LinkIds(events[1..]);
    }
  }

  /** The `links` bucket counts, per id, the events whose id contains
      "link"; the `shops` bucket those whose id contains "shop". An id with
      both words is counted in both, an id with neither in neither. */
  lemma Buckets(events: seq<Event>, k: string)
    ensures Lookup(Summarize(events).links, k) == if Contains(k, "link") then Occurrences(LinkIds(events), k) else 0
    ensures Lookup(Summarize(events).shops, k) == if Contains(k, "shop") then Occurrences(LinkIds(events), k) else 0
    ensures HasKey(Summarize(events).links, k) <==> Contains(k, "link") && k in LinkIds(events)
    ensures HasKey(Summarize(events).shops, k) <==> Contains(k, "shop") && k in LinkIds(events)
  {
    var ls := LinkIdsContaining(events, "link");
    var ss := LinkIdsContaining(events, "shop");
    CountLookup(ls, k);
    CountLookup(ss, k);
    ContainingOccurrences(events, "link", k);
    ContainingOccurrences(events, "shop", k);
    CountWellFormed(ls);
    CountWellFormed(ss);
    LookupPositive(Count(ls), k);
    LookupPositive(Count(ss), k);
    OccurrencesPositive(LinkIds(events), k);
  }

  /** "Clicks on Shops" is the number of events whose id contains "shop",
      so never more than the number of events. */
  lemma ShopClickTotalBound(events: seq<Event>)
    ensures ShopClickTotal(Summarize(events)) == |LinkIdsContaining(events, "shop")|
    ensures ShopClickTotal(Summarize(events)) <= |events|
  {
  }
}
