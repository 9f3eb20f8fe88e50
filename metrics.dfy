/** Request, tool and conversation metrics kept in memory: success/failure
    counters overall and per endpoint or tool, a running mean duration per
    tool, response-time statistics with four latency buckets, and a bounded
    list of conversation lengths.  Clock readings are parameters.  Durations
    are integers of milliseconds; the tools' running mean is an exact real. */
module Metrics {
  import opened Common

  /** Bucket boundaries, in milliseconds. */
  const FastBelow: int := 1000
  const MediumBelow: int := 5000
  const SlowBelow: int := 30000
  /** How many conversation lengths are kept. */
  const MaxConversationLengths: int := 1000

  datatype Counter = Counter(total: int, successful: int, failed: int)

  datatype ToolStats = ToolStats(total: nat, successful: int, failed: int, avgDuration: real)

  /** `min` is None while it is still Infinity. */
  datatype ResponseTimes = ResponseTimes(total: int, count: int, min: Option<int>, max: int,
                                         fast: int, medium: int, slow: int, verySlow: int)

  datatype ConversationStats = ConversationStats(total: int, active: int, messagesPerConversation: seq<int>)

  /** The `metrics` object. */
  datatype Metrics = Metrics(requests: Counter, byEndpoint: map<string, Counter>,
                             tools: Counter, byTool: map<string, ToolStats>,
                             responseTime: ResponseTimes, conversations: ConversationStats)

  const ZeroCounter: Counter := Counter(0, 0, 0)

  /** The state built by the constructor and by `reset()`. */
  const Initial: Metrics :=
    Metrics(ZeroCounter, map[], ZeroCounter, map[],
            ResponseTimes(0, 0, None, 0, 0, 0, 0, 0), ConversationStats(0, 0, []))

  /** Counts one outcome. */
  function Bump(c: Counter, success: bool): (r: Counter)
    ensures r.total == c.total + 1
    ensures success ==> r.successful == c.successful + 1 && r.failed == c.failed
    ensures !success ==> r.failed == c.failed + 1 && r.successful == c.successful
  {
    if success then Counter(c.total + 1, c.successful + 1, c.failed)
    else Counter(c.total + 1, c.successful, c.failed + 1)
  }

  predicate Consistent(c: Counter)
  {
    c.total == c.successful + c.failed && c.successful >= 0 && c.failed >= 0
  }

  datatype Bucket = Fast | Medium | Slow | VerySlow

  function BucketOf(duration: int): Bucket
  {
    if duration < FastBelow then Fast
    else if duration < MediumBelow then Medium
    else if duration < SlowBelow then Slow
    else VerySlow
  }

  /** `recordResponseTime(duration)`. */
  function RecordResponseTime(rt: ResponseTimes, d: int): (r: ResponseTimes)
    ensures r.total == rt.total + d && r.count == rt.count + 1
    ensures r.min == Some(if rt.min.Some? then Min(rt.min.value, d) else d)
    ensures r.max == Max(rt.max, d)
    ensures r.fast == rt.fast + (if d < FastBelow then 1 else 0)
    ensures r.medium == rt.medium + (if FastBelow <= d < MediumBelow then 1 else 0)
    ensures r.slow == rt.slow + (if MediumBelow <= d < SlowBelow then 1 else 0)
    ensures r.verySlow == rt.verySlow + (if SlowBelow <= d then 1 else 0)
  {
    var b := BucketOf(d);
    ResponseTimes(rt.total + d, rt.count + 1, Some(if rt.min.Some? then Min(rt.min.value, d) else d), Max(rt.max, d),
                  rt.fast + (if b == Fast then 1 else 0), rt.medium + (if b == Medium then 1 else 0),
                  rt.slow + (if b == Slow then 1 else 0), rt.verySlow + (if b == VerySlow then 1 else 0))
  }

  /** `recordRequest(endpoint, duration, success)`. */
  function RecordRequest(m: Metrics, endpoint: string, d: int, success: bool): (r: Metrics)
    ensures r.requests == Bump(m.requests, success)
    ensures r.byEndpoint.Keys == m.byEndpoint.Keys + {endpoint}
    ensures r.byEndpoint[endpoint] == Bump(if endpoint in m.byEndpoint then m.byEndpoint[endpoint] else ZeroCounter, success)
    ensures forall e :: e in m.byEndpoint && e != endpoint ==> r.byEndpoint[e] == m.byEndpoint[e]
    ensures r.responseTime == RecordResponseTime(m.responseTime, d)
    ensures r.tools == m.tools && r.byTool == m.byTool && r.conversations == m.conversations
  {
    var before := if endpoint in m.byEndpoint then m.byEndpoint[endpoint] else ZeroCounter;
    m.(requests := Bump(m.requests, success),
       byEndpoint := m.byEndpoint[endpoint := Bump(before, success)],
       responseTime := RecordResponseTime(m.responseTime, d))
  }

  /** The running mean after a tool's `total`-th use of duration `d`. */
  function RunningMean(avg: real, total: int, d: int): real
    requires total >= 1
  {
    (avg * (total - 1) as real + d as real) / total as real
  }

  /** `recordToolUsage(toolName, duration, success)`. */
  function RecordToolUsage(m: Metrics, tool: string, d: int, success: bool): (r: Metrics)
    ensures r.tools == Bump(m.tools, success)
    ensures r.byTool.Keys == m.byTool.Keys + {tool}
    ensures forall t :: t in m.byTool && t != tool ==> r.byTool[t] == m.byTool[t]
    ensures var before := if tool in m.byTool then m.byTool[tool] else ToolStats(0, 0, 0, 0.0);
            var c := Bump(Counter(before.total, before.successful, before.failed), success);
            r.byTool[tool] == ToolStats(c.total, c.successful, c.failed, RunningMean(before.avgDuration, c.total, d))
    ensures r.requests == m.requests && r.byEndpoint == m.byEndpoint && r.responseTime == m.responseTime && r.conversations == m.conversations
  {
    var before := if tool in m.byTool then m.byTool[tool] else ToolStats(0, 0, 0, 0.0);
    var c := Bump(Counter(before.total, before.successful, before.failed), success);
    m.(tools := Bump(m.tools, success),
       byTool := m.byTool[tool := ToolStats(c.total, c.successful, c.failed, RunningMean(before.avgDuration, c.total, d))])
  }

  /** `recordConversation(messageCount)`: pushes the length and keeps the most
      recent thousand. */
  function RecordConversation(m: Metrics, messageCount: int): (r: Metrics)
    ensures r.conversations.total == m.conversations.total + 1
    ensures r.conversations.active == m.conversations.active
    ensures var all := m.conversations.messagesPerConversation + [messageCount];
            var kept := r.conversations.messagesPerConversation;
            |kept| == Min(|all|, MaxConversationLengths) && kept == all[|all| - |kept|..]
    ensures r.requests == m.requests && r.byEndpoint == m.byEndpoint && r.tools == m.tools &&
            r.byTool == m.byTool && r.responseTime == m.responseTime
  {
    var all := m.conversations.messagesPerConversation + [messageCount];
    var kept := if |all| > MaxConversationLengths then SliceFrom(all, -MaxConversationLengths) else all;
    m.(conversations := ConversationStats(m.conversations.total + 1, m.conversations.active, kept))
  }

  // ---------------------------------------------------------------------
  // Replaying a history of recordings

  function Sum(ds: seq<int>): int
  {
    if ds == [] then 0 else Sum(ds[..|ds| - 1]) + ds[|ds| - 1]
  }

  /** The response-time statistics after recording `ds` in order from the
      initial state. */
  function TimesOf(ds: seq<int>): ResponseTimes
  {
    if ds == [] then Initial.responseTime
    else RecordResponseTime(TimesOf(ds[..|ds| - 1]), ds[|ds| - 1])
  }

  /** How many of the durations fall into bucket `b`. */
  function InBucket(ds: seq<int>, b: Bucket): (n: nat)
    ensures n <= |ds|
  {
    if ds == [] then 0 else InBucket(ds[..|ds| - 1], b) + (if BucketOf(ds[|ds| - 1]) == b then 1 else 0)
  }

  /** The statistics describe exactly the recorded durations: their number
      and sum, how many fall into each bucket (one bucket each), the least
      duration (while min stays Infinity only when nothing was recorded) and
      the greatest one or 0. */
  lemma {:induction false} TimesOfDescribes(ds: seq<int>)
    ensures var rt := TimesOf(ds);
            && rt.count == |ds| && rt.total == Sum(ds)
            && rt.fast == InBucket(ds, Fast) && rt.medium == InBucket(ds, Medium)
            && rt.slow == InBucket(ds, Slow) && rt.verySlow == InBucket(ds, VerySlow)
            && rt.fast + rt.medium + rt.slow + rt.verySlow == |ds|
            && (rt.min.None? <==> ds == [])
            && (forall i :: 0 <= i < |ds| ==> rt.min.Some? && rt.min.value <= ds[i] && ds[i] <= rt.max)
            && (ds != [] ==> exists i :: 0 <= i < |ds| && rt.min.value == ds[i])
            && rt.max >= 0 && (rt.max == 0 || exists i :: 0 <= i < |ds| && rt.max == ds[i])
  {
    if ds != [] {
      var init := ds[..|ds| - 1];
      TimesOfDescribes(init);
      var prev := TimesOf(init);
      var rt := TimesOf(ds);
      var d := ds[|ds| - 1];
      assert forall i :: 0 <= i < |init| ==> ds[i] == init[i];
      if init != [] {
        var j :| 0 <= j < |init| && prev.min.value == init[j];
        if rt.min.value == prev.min.value {
          assert rt.min.value == ds[j];
        } else {
          assert rt.min.value == ds[|ds| - 1];
        }
      } else {
        assert rt.min.value == ds[0];
      }
      if rt.max != 0 {
        if rt.max == d {
          assert rt.max == ds[|ds| - 1];
        } else {
          var j :| 0 <= j < |init| && prev.max == init[j];
          assert rt.max == ds[j];
        }
      }
    }
  }

  /** One recorded request (named by its endpoint) or tool use (named by the
      tool). */
  datatype Event = Event(name: string, duration: int, success: bool)

  function ReplayRequests(log: seq<Event>): Metrics
  {
    if log == [] then Initial
    else
      var prev := ReplayRequests(log[..|log| - 1]);
      var q := log[|log| - 1];
      RecordRequest(prev, q.name, q.duration, q.success)
  }

  function Successes(log: seq<Event>): (n: nat)
    ensures n <= |log|
  {
    if log == [] then 0 else Successes(log[..|log| - 1]) + (if log[|log| - 1].success then 1 else 0)
  }

  /** The requests of `log` to `endpoint`. */
  function ForName(log: seq<Event>, endpoint: string): (r: seq<Event>)
    ensures |r| <= |log|
    ensures forall i :: 0 <= i < |r| ==> r[i].name == endpoint
  {
    if log == [] then []
    else ForName(log[..|log| - 1], endpoint) + (if log[|log| - 1].name == endpoint then [log[|log| - 1]] else [])
  }

  function Durations(log: seq<Event>): (ds: seq<int>)
    ensures |ds| == |log|
  {
    if log == [] then [] else Durations(log[..|log| - 1]) + [log[|log| - 1].duration]
  }

  /** The counter a list of events adds up to. */
  function CounterOf(log: seq<Event>): Counter
  {
    Counter(|log|, Successes(log), |log| - Successes(log))
  }

  /** After any history of requests: the overall counter and each endpoint's
      counter count exactly those requests, an endpoint has a counter iff it
      was requested, and the response-time statistics are those of the
      requests' durations. */
  lemma ReplayRequestsCounts(log: seq<Event>)
    ensures var m := ReplayRequests(log);
            && m.requests == CounterOf(log)
            && (forall e :: e in m.byEndpoint <==> |ForName(log, e)| > 0)
            && (forall e :: e in m.byEndpoint ==> m.byEndpoint[e] == CounterOf(ForName(log, e)))
            && m.responseTime == TimesOf(Durations(log))
  {
    ReplayOverall(log);
    forall e | true
      ensures var m := ReplayRequests(log);
              (e in m.byEndpoint <==> |ForName(log, e)| > 0) &&
              (e in m.byEndpoint ==> m.byEndpoint[e] == CounterOf(ForName(log, e)))
    {
      ReplayEndpoint(log, e);
    }
  }

  lemma {:induction false} ReplayOverall(log: seq<Event>)
    ensures ReplayRequests(log).requests == CounterOf(log)
    ensures ReplayRequests(log).responseTime == TimesOf(Durations(log))
  {
    if log != [] {
      var init := log[..|log| - 1];
      ReplayOverall(init);
      assert Durations(log)[..|log| - 1] == Durations(init);
    }
  }

  /** One more request adds one to the counter of its list. */
  lemma CounterOfSnoc(f: seq<Event>, q: Event)
    ensures CounterOf(f + [q]) == Bump(CounterOf(f), q.success)
  {
    assert (f + [q])[..|f|] == f;
  }

  lemma {:induction false} ReplayEndpoint(log: seq<Event>, e: string)
    ensures var m := ReplayRequests(log);
            (e in m.byEndpoint <==> |ForName(log, e)| > 0) &&
            (e in m.byEndpoint ==> m.byEndpoint[e] == CounterOf(ForName(log, e)))
  {
    if log != [] {
      var init := log[..|log| - 1];
      var q := log[|log| - 1];
      ReplayEndpoint(init, e);
      var prev := ReplayRequests(init);
      var m := RecordRequest(prev, q.name, q.duration, q.success);
      assert ReplayRequests(log) == m;
      var f := ForName(init, e);
      if e == q.name {
        assert ForName(log, e) == f + [q];
        CounterOfSnoc(f, q);
        if e in prev.byEndpoint {
          assert m.byEndpoint[e] == Bump(CounterOf(f), q.success);
        } else {
          assert f == [];
          assert m.byEndpoint[e] == Bump(ZeroCounter, q.success);
        }
      } else {
        assert ForName(log, e) == f;
      }
    }
  }

  /** The running mean over a tool's uses in order. */
  function MeanOf(ds: seq<int>): real
  {
    if ds == [] then 0.0 else RunningMean(MeanOf(ds[..|ds| - 1]), |ds|, ds[|ds| - 1])
  }

  /** The running mean the tool statistics keep is the arithmetic mean of
      every duration recorded for the tool. */
  lemma {:induction false} RunningMeanIsMean(ds: seq<int>)
    requires ds != []
    ensures MeanOf(ds) == Sum(ds) as real / |ds| as real
  {
    var n := |ds|;
    var init := ds[..n - 1];
    if init != [] {
      RunningMeanIsMean(init);
      var s := Sum(init) as real;
      var k := (n - 1) as real;
      calc {
        MeanOf(ds);
        (MeanOf(init) * k + ds[n - 1] as real) / n as real;
        ((s / k) * k + ds[n - 1] as real) / n as real;
        { assert (s / k) * k == s; }
        (s + ds[n - 1] as real) / n as real;
      }
    }
  }

  function ReplayTools(log: seq<Event>): Metrics
  {
    if log == [] then Initial
    else
      var prev := ReplayTools(log[..|log| - 1]);
      var q := log[|log| - 1];
      RecordToolUsage(prev, q.name, q.duration, q.success)
  }

  lemma MeanOfSnoc(f: seq<Event>, q: Event)
    ensures MeanOf(Durations(f + [q])) == RunningMean(MeanOf(Durations(f)), |f| + 1, q.duration)
  {
    assert (f + [q])[..|f|] == f;
    assert Durations(f + [q]) == Durations(f) + [q.duration];
    assert (Durations(f) + [q.duration])[..|f|] == Durations(f);
  }

  /** After any history of tool uses, each tool's statistics count its uses
      and its average duration is the mean of their durations. */
  lemma {:induction false} ReplayToolsMean(log: seq<Event>, t: string)
    ensures var m := ReplayTools(log);
            (t in m.byTool <==> |ForName(log, t)| > 0) &&
            (t in m.byTool ==> m.byTool[t].total == |ForName(log, t)| &&
                               m.byTool[t].avgDuration == MeanOf(Durations(ForName(log, t))))
  {
    if log != [] {
      var init := log[..|log| - 1];
      var q := log[|log| - 1];
      ReplayToolsMean(init, t);
      var prev := ReplayTools(init);
      var m := RecordToolUsage(prev, q.name, q.duration, q.success);
      assert ReplayTools(log) == m;
      var f := ForName(init, t);
      if t == q.name {
        assert ForName(log, t) == f + [q];
        MeanOfSnoc(f, q);
      } else {
        assert ForName(log, t) == f;
      }
    }
  }

  /** The sum of `size` over the values of a map. */
  ghost function SumOver<V>(m: map<string, V>, size: V -> int): int
    decreases |m.Keys|
  {
    if m.Keys == {} then 0
    else
      var k :| k in m;
      assert (m - {k}).Keys < m.Keys;
      size(m[k]) + SumOver(m - {k}, size)
  }

  /** The sum does not depend on the key taken out first. */
  lemma {:induction false} SumOverRemove<V>(m: map<string, V>, k: string, size: V -> int)
    requires k in m
    ensures SumOver(m, size) == size(m[k]) + SumOver(m - {k}, size)
    decreases |m.Keys|
  {
    var j :| j in m && SumOver(m, size) == size(m[j]) + SumOver(m - {j}, size);
    if j != k {
      assert (m - {j}).Keys < m.Keys && (m - {k}).Keys < m.Keys;
      SumOverRemove(m - {j}, k, size);
      SumOverRemove(m - {k}, j, size);
      assert m - {j} - {k} == m - {k} - {j};
    }
  }

  /** Writing one key changes the sum by the difference at that key. */
  lemma SumOverUpdate<V>(m: map<string, V>, k: string, v: V, size: V -> int)
    ensures SumOver(m[k := v], size) == SumOver(m, size) - (if k in m then size(m[k]) else 0) + size(v)
  {
    SumOverRemove(m[k := v], k, size);
    assert m[k := v] - {k} == m - {k};
    if k in m {
      SumOverRemove(m, k, size);
    } else {
      assert m - {k} == m;
    }
  }

  function CounterTotal(c: Counter): int
  {
    c.total
  }

  function ToolTotal(t: ToolStats): int
  {
    t.total
  }

  /** The per-endpoint totals add up to the requests' total, and the
      per-tool totals to the tools' total. */
  ghost predicate KeyTotalsAddUp(m: Metrics)
  {
    SumOver(m.byEndpoint, CounterTotal) == m.requests.total && SumOver(m.byTool, ToolTotal) == m.tools.total
  }

  /** Recording a request or a tool use updates the overall and the per-key
      counter together, so their totals keep adding up. */
  lemma RecordingKeepsKeyTotals(m: Metrics, name: string, d: int, success: bool)
    requires KeyTotalsAddUp(m)
    ensures KeyTotalsAddUp(RecordRequest(m, name, d, success))
    ensures KeyTotalsAddUp(RecordToolUsage(m, name, d, success))
  {
    var r := RecordRequest(m, name, d, success);
    SumOverUpdate(m.byEndpoint, name, r.byEndpoint[name], CounterTotal);
    assert r.byEndpoint == m.byEndpoint[name := r.byEndpoint[name]];
    var t := RecordToolUsage(m, name, d, success);
    SumOverUpdate(m.byTool, name, t.byTool[name], ToolTotal);
    assert t.byTool == m.byTool[name := t.byTool[name]];
  }

  /** After any history of requests, and after any history of tool uses, the
      per-key totals add up to the overall total. */
  lemma {:induction false} ReplayKeepsKeyTotals(log: seq<Event>)
    ensures KeyTotalsAddUp(ReplayRequests(log))
    ensures KeyTotalsAddUp(ReplayTools(log))
  {
    if log == [] {
      assert Initial.byEndpoint.Keys == {} && Initial.byTool.Keys == {};
    } else {
      var init := log[..|log| - 1];
      var q := log[|log| - 1];
      ReplayKeepsKeyTotals(init);
      RecordingKeepsKeyTotals(ReplayRequests(init), q.name, q.duration, q.success);
      RecordingKeepsKeyTotals(ReplayTools(init), q.name, q.duration, q.success);
    }
  }

  /** Each counter keeps successful + failed == total. */
  lemma RecordingKeepsCountersConsistent(m: Metrics, name: string, d: int, success: bool)
    requires Consistent(m.requests) && Consistent(m.tools)
    requires forall e :: e in m.byEndpoint ==> Consistent(m.byEndpoint[e])
    requires forall t :: t in m.byTool ==> m.byTool[t].total == m.byTool[t].successful + m.byTool[t].failed &&
                                           m.byTool[t].successful >= 0 && m.byTool[t].failed >= 0
    ensures var r := RecordRequest(m, name, d, success);
            Consistent(r.requests) && forall e :: e in r.byEndpoint ==> Consistent(r.byEndpoint[e])
    ensures var r := RecordToolUsage(m, name, d, success);
            Consistent(r.tools) &&
            forall t :: t in r.byTool ==> r.byTool[t].total == r.byTool[t].successful + r.byTool[t].failed
  {
  }

  /** The list of conversation lengths never grows past a thousand entries
      and always ends with the length just recorded. */
  lemma ConversationLengthsBounded(m: Metrics, messageCount: int)
    requires |m.conversations.messagesPerConversation| <= MaxConversationLengths
    ensures var kept := RecordConversation(m, messageCount).conversations.messagesPerConversation;
            1 <= |kept| <= MaxConversationLengths && kept[|kept| - 1] == messageCount
  {
    var all := m.conversations.messagesPerConversation + [messageCount];
    var kept := RecordConversation(m, messageCount).conversations.messagesPerConversation;
    assert kept[|kept| - 1] == all[|all| - 1];
  }

  // ---------------------------------------------------------------------
  // getMetrics and formatUptime

  /** The bucket counts `getMetrics()` reports as `responseTimeDistribution`. */
  datatype Distribution = Distribution(fast: int, medium: int, slow: int, verySlow: int)

  /** The `performance` section of `getMetrics()`. */
  datatype Performance = Performance(avgResponseTime: int, minResponseTime: int, maxResponseTime: int,
                                     responseTimeDistribution: Distribution)

  function PerformanceOf(rt: ResponseTimes): (p: Performance)
    ensures rt.count > 0 ==> -0.5 < p.avgResponseTime as real - rt.total as real / rt.count as real <= 0.5
    ensures rt.count <= 0 ==> p.avgResponseTime == 0
    ensures rt.min.None? ==> p.minResponseTime == 0
    ensures rt.min.Some? ==> p.minResponseTime == rt.min.value
    ensures p.maxResponseTime == rt.max
    ensures p.responseTimeDistribution == Distribution(rt.fast, rt.medium, rt.slow, rt.verySlow)
  {
    var avg := if rt.count > 0 then rt.total as real / rt.count as real else 0.0;
    Performance(Round(avg), if rt.min.None? then 0 else rt.min.value, rt.max,
                Distribution(rt.fast, rt.medium, rt.slow, rt.verySlow))
  }

  /** `avgMessagesPerConversation`: the mean rounded to one decimal. */
  function AvgMessagesPerConversation(lengths: seq<int>): (a: real)
    ensures lengths == [] ==> a == 0.0
    ensures lengths != [] ==> -0.05 < a - Sum(lengths) as real / |lengths| as real <= 0.05
  {
    var avg := if |lengths| > 0 then Sum(lengths) as real / |lengths| as real else 0.0;
    Round(avg * 10.0) as real / 10.0
  }

  /** The success rate in percent, before `toFixed(2)` formats it; "0%" when
      nothing was counted. */
  function SuccessRate(c: Counter): (r: Option<real>)
    ensures r.None? <==> c.total <= 0
    ensures r.Some? && Consistent(c) ==> 0.0 <= r.value <= 100.0
  {
    if c.total > 0 then Some(c.successful as real / c.total as real * 100.0) else None
  }

  /** The units `formatUptime` splits an uptime into. */
  datatype Uptime = Uptime(days: int, hours: int, minutes: int, seconds: int)

  /** `Math.floor` of successive divisions (Dafny's division by a positive
      number already rounds down). */
  function UptimeOf(ms: int): (u: Uptime)
    ensures u.seconds == ms / 1000 && u.minutes == u.seconds / 60 && u.hours == u.minutes / 60 && u.days == u.hours / 24
  {
    var seconds := ms / 1000;
    var minutes := seconds / 60;
    var hours := minutes / 60;
    Uptime(hours / 24, hours, minutes, seconds)
  }

  /** `formatUptime(ms)`: the largest non-zero unit and the next one or two. */
  function FormatUptime(ms: int): (s: string)
  {
    var u := UptimeOf(ms);
    if u.days > 0 then
      IntToString(u.days) + "d " + IntToString(u.hours % 24) + "h " + IntToString(u.minutes % 60) + "m"
    else if u.hours > 0 then
      IntToString(u.hours) + "h " + IntToString(u.minutes % 60) + "m"
    else if u.minutes > 0 then
      IntToString(u.minutes) + "m " + IntToString(u.seconds % 60) + "s"
    else
      IntToString(u.seconds) + "s"
  }

  /** The units recombine to the whole seconds of the uptime, each below its
      next unit's size, so the text shown by formatUptime drops only the
      smaller units. */
  lemma UptimeRecombines(ms: int)
    requires ms >= 0
    ensures var u := UptimeOf(ms);
            && u.days * 86400 + (u.hours % 24) * 3600 + (u.minutes % 60) * 60 + u.seconds % 60 == ms / 1000
            && 0 <= u.hours % 24 < 24 && 0 <= u.minutes % 60 < 60 && 0 <= u.seconds % 60 < 60
            && (u.days > 0 <==> ms >= 86400000)
            && (u.hours > 0 <==> ms >= 3600000)
            && (u.minutes > 0 <==> ms >= 60000)
  {
    var u := UptimeOf(ms);
    assert u.hours == u.days * 24 + u.hours % 24;
    assert u.minutes == u.hours * 60 + u.minutes % 60;
    assert u.seconds == u.minutes * 60 + u.seconds % 60;
  }

  lemma FormatUptimeExamples()
    ensures FormatUptime(999) == "0s"
    ensures FormatUptime(61000) == "1m 1s"
    ensures FormatUptime(3661000) == "1h 1m"
    ensures FormatUptime(90061000) == "1d 1h 1m"
  {
    assert UptimeOf(90061000) == Uptime(1, 25, 1501, 90061);
    assert UptimeOf(3661000) == Uptime(0, 1, 61, 3661);
  }

  /** The object `getMetrics()` returns: the request counters with their
      per-endpoint counters, the tool counters with their per-tool
      statistics, each with its success rate, the performance section, and
      the conversation statistics with their average length. */
  datatype Report = Report(uptime: int, uptimeFormatted: string,
                           requests: Counter, byEndpoint: map<string, Counter>, requestSuccessRate: Option<real>,
                           tools: Counter, byTool: map<string, ToolStats>, toolSuccessRate: Option<real>,
                           performance: Performance,
                           conversations: ConversationStats, avgMessagesPerConversation: real)

  function MetricsReport(m: Metrics, startTime: int, now: int): (r: Report)
    ensures r.uptime == now - startTime && r.uptimeFormatted == FormatUptime(now - startTime)
    ensures r.requests == m.requests && r.byEndpoint == m.byEndpoint && r.requestSuccessRate == SuccessRate(m.requests)
    ensures r.tools == m.tools && r.byTool == m.byTool && r.toolSuccessRate == SuccessRate(m.tools)
    ensures r.performance == PerformanceOf(m.responseTime)
    ensures r.conversations == m.conversations
    ensures r.avgMessagesPerConversation == AvgMessagesPerConversation(m.conversations.messagesPerConversation)
  {
    Report(now - startTime, FormatUptime(now - startTime),
           m.requests, m.byEndpoint, SuccessRate(m.requests),
           m.tools, m.byTool, SuccessRate(m.tools), PerformanceOf(m.responseTime),
           m.conversations, AvgMessagesPerConversation(m.conversations.messagesPerConversation))
  }

  /** The reported distribution counts every recorded duration in exactly
      one bucket, so its entries add up to the number of responses timed. */
  lemma ReportedDistributionCountsResponses(ds: seq<int>, m: Metrics, startTime: int, now: int)
    requires m.responseTime == TimesOf(ds)
    ensures var dist := MetricsReport(m, startTime, now).performance.responseTimeDistribution;
            && dist.fast == InBucket(ds, Fast) && dist.medium == InBucket(ds, Medium)
            && dist.slow == InBucket(ds, Slow) && dist.verySlow == InBucket(ds, VerySlow)
            && dist.fast + dist.medium + dist.slow + dist.verySlow == |ds|
  {
    TimesOfDescribes(ds);
  }

  /** The tracking middleware's view of a finished response: a status below
      400 counts as a success. */
  function Succeeded(statusCode: int): (ok: bool)
    ensures ok <==> statusCode < 400
  {
    statusCode < 400
  }

  // ---------------------------------------------------------------------
  // The service object

  class MetricsService {
    var metrics: Metrics
    var startTime: int

    constructor (now: int)
      ensures metrics == Initial && startTime == now
    {
      metrics := Initial;
      startTime := now;
    }

    method RecordRequestEvent(endpoint: string, duration: int, success: bool)
      modifies this
      ensures metrics == RecordRequest(old(metrics), endpoint, duration, success)
      ensures startTime == old(startTime)
    {
      metrics := RecordRequest(metrics, endpoint, duration, success);
    }

    method RecordToolUsageEvent(toolName: string, duration: int, success: bool)
      modifies this
      ensures metrics == RecordToolUsage(old(metrics), toolName, duration, success)
      ensures startTime == old(startTime)
    {
      metrics := RecordToolUsage(metrics, toolName, duration, success);
    }

    method RecordConversationEvent(messageCount: int)
      modifies this
      ensures metrics == RecordConversation(old(metrics), messageCount)
      ensures startTime == old(startTime)
    {
      metrics := RecordConversation(metrics, messageCount);
    }

    /** `updateActiveConversations(count)`. */
    method UpdateActiveConversations(count: int)
      modifies this
      ensures metrics == old(metrics).(conversations := old(metrics).conversations.(active := count))
      ensures startTime == old(startTime)
    {
      metrics := metrics.(conversations := metrics.conversations.(active := count));
    }

    /** The middleware's `finish` handler for a request to `path` that
        started at `started` and finished at `finished`. */
    method TrackFinishedRequest(path: string, statusCode: int, started: int, finished: int)
      modifies this
      ensures metrics == RecordRequest(old(metrics), path, finished - started, Succeeded(statusCode))
      ensures startTime == old(startTime)
    {
      RecordRequestEvent(path, finished - started, statusCode < 400);
    }

    method Reset(now: int)
      modifies this
      ensures metrics == Initial && startTime == now
    {
      metrics := Initial;
      startTime := now;
    }

    /** `getMetrics()` at time `now`. */
    function GetMetrics(now: int): (r: Report)
      reads this
      ensures r == MetricsReport(metrics, startTime, now)
    {
      MetricsReport(metrics, startTime, now)
    }
  }
}
