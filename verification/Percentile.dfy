/** The trailing P95 over paged metric data (pkg/oci/query.go). */
module Percentile {
  import opened Numeric

  const TARGET := 0.95

  /** The SDK's pointers: either part of a datapoint may be missing. */
  datatype Datapoint = Datapoint(value: Option<real>, timestamp: Option<int>)

  datatype Token = Absent | Blank | Text(token: string)

  datatype Response = Failed(error: Error) | Page(items: seq<seq<Datapoint>>, next: Token)

  datatype QueryError = NilClient | MissingInstance | NoMetricsData | Summarize(error: Error)

  /** A usable datapoint. */
  datatype Sample = Sample(value: real, at: int)

  /** The zero time, before any real timestamp. */
  const ZERO_TIME := 0

  // ----------------------------------------------------------------- the percentile

  predicate Ordered(s: seq<real>) {
    forall i, j :: 0 <= i < j < |s| ==> s[i] <= s[j]
  }

  function Insert(x: real, s: seq<real>): seq<real>
    decreases s
  {
    if s == [] || x <= s[0] then [x] + s else [s[0]] + Insert(x, s[1..])
  }

  function Sorted(s: seq<real>): seq<real>
    decreases s
  {
    if s == [] then [] else Insert(s[0], Sorted(s[1..]))
  }

  lemma {:induction false} InsertBag(x: real, s: seq<real>)
    ensures multiset(Insert(x, s)) == multiset(s) + multiset{x}
    decreases s
  {
    if s == [] || x <= s[0] {
    } else {
      InsertBag(x, s[1..]);
      assert s == [s[0]] + s[1..];
    }
  }

  lemma {:induction false} InsertOrders(x: real, s: seq<real>)
    requires Ordered(s)
    ensures Ordered(Insert(x, s))
    decreases s
  {
    if s == [] || x <= s[0] {
    } else {
      var rest := Insert(x, s[1..]);
      InsertOrders(x, s[1..]);
      InsertBag(x, s[1..]);
      forall i | 0 <= i < |rest|
        ensures s[0] <= rest[i]
      {
        assert rest[i] in multiset(rest);
        assert rest[i] == x || rest[i] in multiset(s[1..]);
      }
    }
  }

  lemma {:induction false} SortedOrders(s: seq<real>)
    ensures Ordered(Sorted(s)) && multiset(Sorted(s)) == multiset(s) && |Sorted(s)| == |s|
    decreases s
  {
    if s == [] {
    } else {
      SortedOrders(s[1..]);
      InsertOrders(s[0], Sorted(s[1..]));
      InsertBag(s[0], Sorted(s[1..]));
      assert s == [s[0]] + s[1..];
      assert |multiset(Sorted(s))| == |multiset(s)|;
    }
  }

  /** Stands for the standard library's in-place sort. */
  method SortInPlace(a: array<real>)
    modifies a
    ensures a[..] == Sorted(old(a[..]))
  {
    var sorted := Sorted(a[..]);
    SortedOrders(a[..]);
    forall i | 0 <= i < a.Length {
      a[i] := sorted[i];
    }
    assert a[..] == sorted;
  }

  function Ceiling(x: real): int {
    -(-x).Floor
  }

  /** How many samples must lie at or below the percentile. */
  function Quota(n: nat): int {
    Ceiling(TARGET * n as real)
  }

  function Rank(n: nat): int {
    if Quota(n) < 1 then 1 else Quota(n)
  }

  function ClipIndex(index: int, length: nat): int {
    if index >= length then length - 1 else index
  }

  function NearestRank(s: seq<real>): real
    requires s != []
  {
    SortedOrders(s);
    Sorted(s)[ClipIndex(Rank(|s|) - 1, |s|)]
  }

  method PercentileOf(values: array<real>) returns (p: real)
    requires 0 < values.Length
    modifies values
    ensures p == NearestRank(old(values[..]))
    ensures values[..] == Sorted(old(values[..]))
  {
    SortedOrders(values[..]);
    SortInPlace(values);
    var rank := Ceiling(TARGET * values.Length as real);
    if rank < 1 {
      rank := 1;
    }
    var index := ClipIndex(rank - 1, values.Length);
    p := values[index];
  }

  function AtMost(s: seq<real>, v: real): nat
    decreases s
  {
    if s == [] then 0 else AtMost(s[1..], v) + (if s[0] <= v then 1 else 0)
  }

  function Below(s: seq<real>, v: real): nat
    decreases s
  {
    if s == [] then 0 else Below(s[1..], v) + (if s[0] < v then 1 else 0)
  }

  lemma {:induction false} InsertCounts(x: real, s: seq<real>, v: real)
    ensures AtMost(Insert(x, s), v) == AtMost(s, v) + (if x <= v then 1 else 0)
    ensures Below(Insert(x, s), v) == Below(s, v) + (if x < v then 1 else 0)
    decreases s
  {
    if s == [] || x <= s[0] {
      assert ([x] + s)[1..] == s;
    } else {
      InsertCounts(x, s[1..], v);
      assert ([s[0]] + Insert(x, s[1..]))[1..] == Insert(x, s[1..]);
    }
  }

  lemma {:induction false} SortedCounts(s: seq<real>, v: real)
    ensures AtMost(Sorted(s), v) == AtMost(s, v) && Below(Sorted(s), v) == Below(s, v)
    decreases s
  {
    if s == [] {
    } else {
      SortedCounts(s[1..], v);
      InsertCounts(s[0], Sorted(s[1..]), v);
    }
  }

  /** In an ordered sequence, position `k` has at least `k + 1` elements at or below it and at most
      `k` below it. */
  lemma {:induction false} PositionCounts(t: seq<real>, k: nat)
    requires Ordered(t) && k < |t|
    ensures k + 1 <= AtMost(t, t[k]) && Below(t, t[k]) <= k
    decreases t
  {
    if k == 0 {
      NoneBelow(t, t[0]);
    } else {
      PositionCounts(t[1..], k - 1);
    }
  }

  lemma {:induction false} NoneBelow(t: seq<real>, v: real)
    requires forall i :: 0 <= i < |t| ==> v <= t[i]
    ensures Below(t, v) == 0
    decreases t
  {
    if t == [] {
    } else {
      NoneBelow(t[1..], v);
    }
  }

  lemma QuotaRange(n: nat)
    requires 0 < n
    ensures 1 <= Quota(n) <= n
  {
  }

  /** A value is the 95th percentile by nearest rank: a sample, with at least 95 in 100 of all samples
      at or below it and fewer than 95 in 100 below it. */
  predicate IsNearestRank(s: seq<real>, v: real) {
    v in s && 95 * |s| <= 100 * AtMost(s, v) && 100 * Below(s, v) < 95 * |s|
  }

  lemma QuotaInHundredths(n: nat, k: int)
    ensures Quota(n) <= k <==> 95 * n <= 100 * k
  {
    var x := TARGET * n as real;
    assert 100.0 * x == (95 * n) as real;
    assert (100 * k) as real == 100.0 * k as real;
    assert (-x).Floor as real <= -x < (-x).Floor as real + 1.0;
  }

  lemma {:induction false} CountsOrder(s: seq<real>, v: real, w: real)
    requires v < w
    ensures AtMost(s, v) <= Below(s, w)
    decreases s
  {
    if s == [] {
    } else {
      CountsOrder(s[1..], v, w);
    }
  }

  /** The definition pins the result down: it holds of exactly one value. */
  lemma NearestRankExact(s: seq<real>, v: real)
    requires s != []
    ensures IsNearestRank(s, v) <==> v == NearestRank(s)
  {
    SortedOrders(s);
    QuotaRange(|s|);
    var w := NearestRank(s);
    var k := Quota(|s|) - 1;
    assert w == Sorted(s)[k];
    PositionCounts(Sorted(s), k);
    SortedCounts(s, w);
    assert w in multiset(Sorted(s));
    QuotaInHundredths(|s|, AtMost(s, w));
    QuotaInHundredths(|s|, Below(s, w));
    assert IsNearestRank(s, w);
    if v < w {
      CountsOrder(s, v, w);
    } else if w < v {
      CountsOrder(s, w, v);
    }
  }

  /** Nothing in an ordered sequence is smaller than its first element. */
  lemma LeastFirst(s: seq<real>, v: real)
    requires Ordered(s) && v in s
    ensures s[0] <= v
  {
  }

  lemma {:induction false} OrderedUnique(a: seq<real>, b: seq<real>)
    requires Ordered(a) && Ordered(b) && multiset(a) == multiset(b)
    ensures a == b
    decreases |a|
  {
    assert |a| == |multiset(a)| == |multiset(b)| == |b|;
    if a != [] {
      assert a[0] == b[0] by {
        assert a[0] in multiset(b) && b[0] in multiset(a);
        LeastFirst(a, b[0]);
        LeastFirst(b, a[0]);
      }
      assert multiset(a[1..]) == multiset(b[1..]) by {
        TailBag(a);
        TailBag(b);
      }
      OrderedUnique(a[1..], b[1..]);
      SameHeadAndTail(a, b);
    }
  }

  lemma TailBag(s: seq<real>)
    requires s != []
    ensures multiset(s[1..]) == multiset(s) - multiset{s[0]}
  {
    assert s == [s[0]] + s[1..];
  }

  lemma SameHeadAndTail(a: seq<real>, b: seq<real>)
    requires a != [] && b != [] && a[0] == b[0] && a[1..] == b[1..]
    ensures a == b
  {
    assert a == [a[0]] + a[1..] && b == [b[0]] + b[1..];
  }

  // ------------------------------------------------------------------------- paging

  /** A usable datapoint as a sample. */
  function Reading(p: Datapoint): seq<Sample> {
    if p.value.Some? && p.timestamp.Some? then [Sample(p.value.value, p.timestamp.value)] else []
  }

  function Usable(points: seq<Datapoint>): seq<Sample>
    decreases points
  {
    if points == [] then []
    else
      var before, p := points[..|points| - 1], points[|points| - 1];
      Usable(before) + Reading(p)
  }

  function UsableOf(streams: seq<seq<Datapoint>>): seq<Sample>
    decreases streams
  {
    if streams == [] then []
    else UsableOf(streams[..|streams| - 1]) + Usable(streams[|streams| - 1])
  }

  function Values(samples: seq<Sample>): seq<real> {
    seq(|samples|, i requires 0 <= i < |samples| => samples[i].value)
  }

  function Latest(start: int, samples: seq<Sample>): int
    decreases samples
  {
    if samples == [] then start
    else
      var before := Latest(start, samples[..|samples| - 1]);
      var at := samples[|samples| - 1].at;
      if at > before then at else before
  }

  lemma {:induction false} LatestConcat(start: int, a: seq<Sample>, b: seq<Sample>)
    ensures Latest(start, a + b) == Latest(Latest(start, a), b)
    decreases b
  {
    if b == [] {
      assert a + b == a;
    } else {
      LatestConcat(start, a, b[..|b| - 1]);
      assert (a + b)[..|a + b| - 1] == a + b[..|b| - 1];
    }
  }

  lemma OneMorePoint(values: seq<real>, start: int, seen: seq<Sample>, p: Datapoint)
    ensures var after := seen + Reading(p);
      if p.value.Some? && p.timestamp.Some? then
        && values + Values(after) == values + Values(seen) + [p.value.value]
        && Latest(start, after) ==
             (if p.timestamp.value > Latest(start, seen) then p.timestamp.value else Latest(start, seen))
      else after == seen
  {
    var after := seen + Reading(p);
    if p.value.Some? && p.timestamp.Some? {
      assert after[..|after| - 1] == seen;
      assert Values(after) == Values(seen) + [p.value.value];
    }
  }

  lemma OneMoreInStream(done: seq<Sample>, stream: seq<Datapoint>, j: nat)
    requires j < |stream|
    ensures done + Usable(stream[..j + 1]) == done + Usable(stream[..j]) + Reading(stream[j])
  {
    assert stream[..j + 1][..j] == stream[..j];
  }

  lemma OneMoreStream(streams: seq<seq<Datapoint>>, i: nat)
    requires i < |streams|
    ensures UsableOf(streams[..i + 1]) == UsableOf(streams[..i]) + Usable(streams[i])
  {
    assert streams[..i + 1][..i] == streams[..i];
  }

  method AppendMetricValues(values: seq<real>, latest: int, streams: seq<seq<Datapoint>>)
    returns (grown: seq<real>, newest: int)
    ensures grown == values + Values(UsableOf(streams))
    ensures newest == Latest(latest, UsableOf(streams))
  {
    grown, newest := values, latest;
    ghost var seen: seq<Sample> := [];
    var i := 0;
    while i < |streams|
      invariant 0 <= i <= |streams| && seen == UsableOf(streams[..i])
      invariant grown == values + Values(seen) && newest == Latest(latest, seen)
    {
      var stream := streams[i];
      ghost var done := seen;
      assert Usable(stream[..0]) == [] && done + [] == done;
      var j := 0;
      while j < |stream|
        invariant 0 <= j <= |stream| && seen == done + Usable(stream[..j])
        invariant grown == values + Values(seen) && newest == Latest(latest, seen)
      {
        var p := stream[j];
        OneMorePoint(values, latest, seen, p);
        OneMoreInStream(done, stream, j);
        if p.value.Some? && p.timestamp.Some? {
          grown := grown + [p.value.value];
          if p.timestamp.value > newest {
            newest := p.timestamp.value;
          }
        }
        seen := seen + Reading(p);
        j := j + 1;
      }
      assert stream[..|stream|] == stream;
      OneMoreStream(streams, i);
      i := i + 1;
    }
    assert streams[..|streams|] == streams;
  }

  /** The response that ends the paging loop: a failure, or a page without a usable token. */
  predicate Terminal(r: Response) {
    r.Failed? || !r.next.Text?
  }

  predicate Ends(responses: seq<Response>) {
    exists i :: 0 <= i < |responses| && Terminal(responses[i])
  }

  lemma EndsLater(responses: seq<Response>)
    requires Ends(responses) && !Terminal(responses[0])
    ensures 1 < |responses| && Ends(responses[1..])
  {
    var i :| 0 <= i < |responses| && Terminal(responses[i]);
    assert responses[1..][i - 1] == responses[i];
  }

  /** What earlier pages add to a later outcome. */
  function Prepend(samples: seq<Sample>, later: Result<seq<Sample>, Error>): Result<seq<Sample>, Error> {
    match later
    case Err(error) => Err(error)
    case Ok(rest) => Ok(samples + rest)
  }

  /** All samples of the pages up to the first terminal response, or its error. */
  function Collected(responses: seq<Response>): Result<seq<Sample>, Error>
    requires Ends(responses)
    decreases responses
  {
    match responses[0]
    case Failed(error) => Err(error)
    case Page(items, next) =>
      if !next.Text? then Ok(UsableOf(items))
      else
        EndsLater(responses);
        Prepend(UsableOf(items), Collected(responses[1..]))
  }

  lemma PrependTwice(a: seq<Sample>, b: seq<Sample>, later: Result<seq<Sample>, Error>)
    ensures Prepend(a, Prepend(b, later)) == Prepend(a + b, later)
    ensures Prepend([], later) == later
  {
    if later.Ok? {
      assert a + (b + later.value) == a + b + later.value;
      assert [] + later.value == later.value;
    }
  }

  /** The answer drawn from a set of samples. */
  function Answer(samples: seq<Sample>): Option<Sample> {
    if samples == [] then None
    else Some(Sample(NearestRank(Values(samples)), Latest(ZERO_TIME, samples)))
  }

  /** What is answered for the samples, or the error, of a whole conversation. */
  function Summary(collected: Result<seq<Sample>, Error>): Result<Option<Sample>, Error> {
    match collected
    case Err(error) => Err(error)
    case Ok(samples) => Ok(Answer(samples))
  }

  function Outcome(responses: seq<Response>): Result<Option<Sample>, Error>
    requires Ends(responses)
  {
    Summary(Collected(responses))
  }

  /** One page moves its samples from the replies to come to those seen. */
  lemma OnePage(seen: seq<Sample>, replies: seq<Response>)
    requires Ends(replies) && replies[0].Page?
    ensures var page := UsableOf(replies[0].items);
      && Values(seen + page) == Values(seen) + Values(page)
      && Latest(ZERO_TIME, seen + page) == Latest(Latest(ZERO_TIME, seen), page)
      && (Terminal(replies[0]) ==> Prepend(seen, Collected(replies)) == Ok(seen + page))
      && (!Terminal(replies[0]) ==>
            && 1 < |replies| && Ends(replies[1..])
            && Prepend(seen, Collected(replies)) == Prepend(seen + page, Collected(replies[1..])))
  {
    var page := UsableOf(replies[0].items);
    LatestConcat(ZERO_TIME, seen, page);
    assert Values(seen + page) == Values(seen) + Values(page);
    if !Terminal(replies[0]) {
      EndsLater(replies);
      PrependTwice(seen, page, Collected(replies[1..]));
    }
  }

  /** `responses` are the service's replies to successive page requests. */
  method CollectLatestDatapoint(responses: seq<Response>) returns (r: Result<Option<Sample>, Error>)
    requires Ends(responses)
    ensures r == Outcome(responses)
  {
    var values: seq<real>, latest := [], ZERO_TIME;
    ghost var samples: seq<Sample> := [];
    ghost var collected := Collected(responses);
    var i := 0;
    assert responses[0..] == responses;
    PrependTwice([], [], collected);
    while true
      invariant 0 <= i < |responses| && Ends(responses[i..])
      invariant values == Values(samples) && latest == Latest(ZERO_TIME, samples)
      invariant collected == Prepend(samples, Collected(responses[i..]))
      decreases |responses| - i
    {
      var response := responses[i];
      if response.Failed? {
        return Err(response.error);
      }
      values, latest := AppendMetricValues(values, latest, response.items);
      OnePage(samples, responses[i..]);
      assert responses[i..][1..] == responses[i + 1..];
      samples := samples + UsableOf(response.items);
      if !response.next.Text? {
        break;
      }
      i := i + 1;
    }
    assert collected == Ok(samples);
    if |values| == 0 {
      return Ok(None);
    }
    var buffer := new real[|values|](k requires 0 <= k < |values| => values[k]);
    assert buffer[..] == values;
    var p := PercentileOf(buffer);
    r := Ok(Some(Sample(p, latest)));
  }

  method QueryP95CPU(hasClient: bool, instance: string, responses: seq<Response>)
    returns (r: Result<Sample, QueryError>)
    requires Ends(responses)
    ensures r == if !hasClient then Err(NilClient)
                 else if instance == "" then Err(MissingInstance)
                 else match Outcome(responses)
                      case Err(error) => Err(Summarize(error))
                      case Ok(None) => Err(NoMetricsData)
                      case Ok(Some(sample)) => Ok(sample)
    ensures hasClient && instance != "" ==>
      forall k: nat :: LeadsTo(responses, k) && responses[k].Failed? ==>
        r == Err(Summarize(responses[k].error))
  {
    forall k: nat | LeadsTo(responses, k) && responses[k].Failed?
      ensures Outcome(responses) == Err(responses[k].error)
    {
      FailureIsReturned(responses, k);
    }
    if !hasClient {
      return Err(NilClient);
    }
    if instance == "" {
      return Err(MissingInstance);
    }
    var found := CollectLatestDatapoint(responses);
    match found
    case Err(error) => r := Err(Summarize(error));
    case Ok(None) => r := Err(NoMetricsData);
    case Ok(Some(sample)) => r := Ok(sample);
  }

  // ------------------------------------------------------------------ independence

  lemma ValuesWithout(samples: seq<Sample>, k: nat) returns (rest: seq<Sample>)
    requires k < |samples|
    ensures |rest| == |samples| - 1
    ensures multiset(rest) == multiset(samples) - multiset{samples[k]}
    ensures multiset(Values(samples)) == multiset(Values(rest)) + multiset{samples[k].value}
  {
    var left, right := samples[..k], samples[k + 1..];
    rest := left + right;
    assert samples == left + [samples[k]] + right;
    assert Values(samples) == Values(left) + [samples[k].value] + Values(right);
    assert Values(rest) == Values(left) + Values(right);
  }

  lemma {:induction false} ValuesBag(a: seq<Sample>, b: seq<Sample>)
    requires multiset(a) == multiset(b)
    ensures multiset(Values(a)) == multiset(Values(b))
    decreases |a|
  {
    if a == [] {
      assert |multiset(b)| == 0;
    } else {
      assert a[0] in multiset(b);
      var k :| 0 <= k < |b| && b[k] == a[0];
      var a' := ValuesWithout(a, 0);
      var b' := ValuesWithout(b, k);
      ValuesBag(a', b');
    }
  }

  /** The reported time is the latest of the zero time and the samples' own. */
  lemma {:induction false} LatestIsMaximum(start: int, samples: seq<Sample>)
    ensures var t := Latest(start, samples);
      && start <= t
      && (forall x :: x in samples ==> x.at <= t)
      && (t == start || exists x :: x in samples && x.at == t)
    decreases samples
  {
    if samples == [] {
    } else {
      var before, x := samples[..|samples| - 1], samples[|samples| - 1];
      LatestIsMaximum(start, before);
      assert samples == before + [x];
      assert x in samples;
    }
  }

  /** The answer depends only on the bag of usable samples: not on pages, streams or order. */
  lemma AnswerOfBag(a: seq<Sample>, b: seq<Sample>)
    requires multiset(a) == multiset(b)
    ensures Answer(a) == Answer(b)
  {
    assert |multiset(a)| == |multiset(b)|;
    if a != [] {
      ValuesBag(a, b);
      SortedOrders(Values(a));
      SortedOrders(Values(b));
      OrderedUnique(Sorted(Values(a)), Sorted(Values(b)));
      LatestIsMaximum(ZERO_TIME, a);
      LatestIsMaximum(ZERO_TIME, b);
      assert forall x :: x in a <==> x in multiset(a);
      assert forall x :: x in b <==> x in multiset(b);
    }
  }

  /** The replies of a service that serves `pages`, each with a token for the next, then `last`. */
  function Replies(pages: seq<seq<seq<Datapoint>>>, last: seq<seq<Datapoint>>): (rs: seq<Response>)
    ensures Ends(rs)
    decreases pages
  {
    if pages == [] then
      var rs := [Page(last, Absent)];
      assert Terminal(rs[0]);
      rs
    else
      CollectedHead(pages[0], Replies(pages[1..], last));
      [Page(pages[0], Text("next"))] + Replies(pages[1..], last)
  }

  lemma CollectedHead(items: seq<seq<Datapoint>>, rest: seq<Response>)
    requires Ends(rest)
    ensures var rs := [Page(items, Text("next"))] + rest;
      Ends(rs) && Collected(rs) == Prepend(UsableOf(items), Collected(rest))
  {
    var rs := [Page(items, Text("next"))] + rest;
    var i :| 0 <= i < |rest| && Terminal(rest[i]);
    assert rs[i + 1] == rest[i];
    assert rs[1..] == rest;
  }

  /** Splitting the same streams over pages differently changes nothing. */
  lemma {:induction false} PagingIsInvisible(pages: seq<seq<seq<Datapoint>>>, last: seq<seq<Datapoint>>)
    ensures Collected(Replies(pages, last)) == Ok(UsableOf(Flat(pages) + last))
    decreases pages
  {
    if pages == [] {
      assert Flat(pages) + last == last;
    } else {
      var tail := Flat(pages[1..]) + last;
      PagingIsInvisible(pages[1..], last);
      CollectedHead(pages[0], Replies(pages[1..], last));
      FirstPage(pages, last);
      UsableOfConcat(pages[0], tail);
    }
  }

  /** Two conversations whose pages and streams hold the same bag of usable datapoints, however split
      and ordered, get the same answer: the nearest-rank value of that bag and its latest time. */
  lemma SplitsAreInvisible(pages1: seq<seq<seq<Datapoint>>>, last1: seq<seq<Datapoint>>,
                           pages2: seq<seq<seq<Datapoint>>>, last2: seq<seq<Datapoint>>)
    requires multiset(UsableOf(Flat(pages1) + last1)) == multiset(UsableOf(Flat(pages2) + last2))
    ensures Outcome(Replies(pages1, last1)) == Outcome(Replies(pages2, last2))
    ensures Outcome(Replies(pages1, last1)).Ok?
  {
    PagingIsInvisible(pages1, last1);
    PagingIsInvisible(pages2, last2);
    AnswerOfBag(UsableOf(Flat(pages1) + last1), UsableOf(Flat(pages2) + last2));
  }

  lemma FirstPage(pages: seq<seq<seq<Datapoint>>>, last: seq<seq<Datapoint>>)
    requires pages != []
    ensures Flat(pages) + last == pages[0] + (Flat(pages[1..]) + last)
  {
  }

  function Flat(pages: seq<seq<seq<Datapoint>>>): seq<seq<Datapoint>>
    decreases pages
  {
    if pages == [] then [] else pages[0] + Flat(pages[1..])
  }

  lemma {:induction false} UsableOfConcat(a: seq<seq<Datapoint>>, b: seq<seq<Datapoint>>)
    ensures UsableOf(a + b) == UsableOf(a) + UsableOf(b)
    decreases b
  {
    if b == [] {
      assert a + b == a;
    } else {
      var before, whole := b[..|b| - 1], a + b;
      UsableOfConcat(a, before);
      assert whole[..|whole| - 1] == a + before && whole[|whole| - 1] == b[|b| - 1];
      LastStream(whole);
      LastStream(b);
      Associative(UsableOf(a), UsableOf(before), Usable(b[|b| - 1]));
    }
  }

  lemma Associative(a: seq<Sample>, b: seq<Sample>, c: seq<Sample>)
    ensures a + b + c == a + (b + c)
  {
  }

  lemma LastStream(streams: seq<seq<Datapoint>>)
    requires streams != []
    ensures UsableOf(streams) == UsableOf(streams[..|streams| - 1]) + Usable(streams[|streams| - 1])
  {
  }

  // --------------------------------------------------- conversations, reply by reply

  /** Every reply before position `k` is a page with a token for the next. */
  predicate LeadsTo(responses: seq<Response>, k: nat) {
    k < |responses| && forall j :: 0 <= j < k ==> responses[j].Page? && responses[j].next.Text?
  }

  /** A failed reply is the answer, whatever the pages before it held. */
  lemma {:induction false} FailureIsReturned(responses: seq<Response>, k: nat)
    requires LeadsTo(responses, k) && responses[k].Failed?
    ensures Ends(responses) && Outcome(responses) == Err(responses[k].error)
    decreases k
  {
    assert Terminal(responses[k]);
    if 0 < k {
      FailureIsReturned(responses[1..], k - 1);
    }
  }

  /** The streams of the pages, in order. */
  function Streams(responses: seq<Response>): seq<seq<Datapoint>>
    decreases responses
  {
    if responses == [] then []
    else (if responses[0].Page? then responses[0].items else []) + Streams(responses[1..])
  }

  /** The first page without a usable token ends the conversation, and the answer covers exactly the
      pages up to it. */
  lemma {:induction false} LastPageAnswers(responses: seq<Response>, k: nat)
    requires LeadsTo(responses, k)
    requires responses[k].Page? && (responses[k].next.Absent? || responses[k].next.Blank?)
    ensures Ends(responses)
    ensures Collected(responses) == Ok(UsableOf(Streams(responses[..k + 1])))
    ensures Outcome(responses) == Ok(Answer(UsableOf(Streams(responses[..k + 1]))))
    decreases k
  {
    assert Terminal(responses[k]);
    var first, rest := responses[0], responses[1..];
    assert responses[..k + 1][0] == first;
    assert responses[..k + 1][1..] == rest[..k];
    if k == 0 {
      assert Streams(rest[..0]) == [] && first.items + [] == first.items;
    } else {
      LastPageAnswers(rest, k - 1);
      UsableOfConcat(first.items, Streams(rest[..k]));
    }
  }

  function Points(streams: seq<seq<Datapoint>>): seq<Datapoint>
    decreases streams
  {
    if streams == [] then [] else Points(streams[..|streams| - 1]) + streams[|streams| - 1]
  }

  /** The usable samples are the datapoints with both parts, each as often as it was served. */
  lemma {:induction false} UsableExactly(streams: seq<seq<Datapoint>>, x: Sample)
    ensures multiset(UsableOf(streams))[x]
      == multiset(Points(streams))[Datapoint(Some(x.value), Some(x.at))]
    decreases streams
  {
    if streams == [] {
    } else {
      UsableExactly(streams[..|streams| - 1], x);
      UsableInStream(streams[|streams| - 1], x);
    }
  }

  lemma {:induction false} UsableInStream(points: seq<Datapoint>, x: Sample)
    ensures multiset(Usable(points))[x] == multiset(points)[Datapoint(Some(x.value), Some(x.at))]
    decreases points
  {
    if points == [] {
    } else {
      var before, p := points[..|points| - 1], points[|points| - 1];
      UsableInStream(before, x);
      assert points == before + [p];
      assert multiset(Usable(points))[x] == multiset(Usable(before))[x] + multiset(Reading(p))[x];
    }
  }

  /** The answer: nothing for no samples, and otherwise the 95th percentile of their values and the
      latest of the zero time and their times. */
  lemma AnswerExactly(samples: seq<Sample>, values: seq<real>)
    requires |values| == |samples| && forall i :: 0 <= i < |samples| ==> values[i] == samples[i].value
    ensures Answer(samples) == None <==> samples == []
    ensures samples != [] ==>
      var x := Answer(samples).value;
      && IsNearestRank(values, x.value)
      && 0 <= x.at && (forall y :: y in samples ==> y.at <= x.at)
      && (x.at == 0 || exists y :: y in samples && y.at == x.at)
  {
    if samples != [] {
      assert values == Values(samples);
      NearestRankExact(values, Answer(samples).value.value);
      LatestIsMaximum(ZERO_TIME, samples);
    }
  }
}
