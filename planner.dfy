/** The plan-building loop of Contentplanner.py:35-44: for every day label
    and every post number of that day, ask the content source for one idea
    about the topic and append a row to the planner. */
module Planner {
  import opened Labels

  /** One planner row: the "Day", "Post #" and "Generated Idea" columns. */
  datatype Row = Row(day: string, postNum: nat, idea: string)

  /** The hosted chat-completion call `generate_content(topic)`. Its replies
      are not specified: `respond(topic, n)` is whatever the n-th call made to
      this source (counting from 0) returns, and `calls` records the topic
      passed to every call made so far, in order. */
  class ContentSource {
    const respond: (string, nat) -> string
    var calls: seq<string>

    constructor (respond: (string, nat) -> string)
      ensures this.respond == respond && calls == []
    {
      this.respond := respond;
      calls := [];
    }

    method Generate(topic: string) returns (idea: string)
      modifies this
      ensures calls == old(calls) + [topic]
      ensures idea == respond(topic, |old(calls)|)
    {
      idea := respond(topic, |calls|);
      calls := calls + [topic];
    }
  }

  /** The replies of `n` consecutive calls with `topic`, the first of them
      being call number `start`. */
  function Replies(respond: (string, nat) -> string, topic: string, start: nat, n: nat): (ideas: seq<string>)
    ensures |ideas| == n
  {
    seq(n, k requires 0 <= k < n => respond(topic, start + k))
  }

  /** `n` copies of `topic`: the arguments of `n` calls. */
  function Topics(topic: string, n: nat): (ts: seq<string>)
    ensures |ts| == n
  {
    seq(n, _ => topic)
  }

  /** The rows of one day: post numbers 1 .. perDay in order, the j-th
      carrying the j-th idea. */
  function DayRows(day: string, perDay: nat, ideas: seq<string>): (rows: seq<Row>)
    requires |ideas| == perDay
  {
    seq(perDay, j requires 0 <= j < perDay => Row(day, j + 1, ideas[j]))
  }

  /** The planner built from a day list, day by day, each day consuming the
      next `perDay` ideas. */
  function PlanOf(days: seq<string>, perDay: nat, ideas: seq<string>): (rows: seq<Row>)
    requires |ideas| == |days| * perDay
    ensures |rows| == |days| * perDay
    decreases |days|
  {
    if days == [] then []
    else
      assert |days| * perDay == perDay + (|days| - 1) * perDay;
      DayRows(days[0], perDay, ideas[..perDay]) + PlanOf(days[1..], perDay, ideas[perDay..])
  }

  /** The planner for `numDays` days of `perDay` posts, given the ideas the
      source returned in order. */
  function Plan(numDays: nat, perDay: nat, ideas: seq<string>): seq<Row>
    requires |ideas| == numDays * perDay
  {
    PlanOf(DaysList(numDays), perDay, ideas)
  }

  /** Adding one more day to the day list appends that day's rows and leaves
      the rows already built untouched. */
  lemma {:induction false} PlanOfAppendDay(days: seq<string>, day: string, perDay: nat, ideas: seq<string>, more: seq<string>)
    requires |ideas| == |days| * perDay && |more| == perDay
    ensures |ideas + more| == |days + [day]| * perDay
    ensures PlanOf(days + [day], perDay, ideas + more) == PlanOf(days, perDay, ideas) + DayRows(day, perDay, more)
    decreases |days|
  {
    MulSucc(|days|, perDay);
    var longer := days + [day];
    if days == [] {
      assert ideas + more == more;
      assert longer[1..] == [];
      assert more[perDay..] == [];
    } else {
      var rest := days[1..];
      MulSucc(|rest|, perDay);
      var restIdeas := ideas[perDay..];
      PlanOfAppendDay(rest, day, perDay, restIdeas, more);
      assert longer[0] == days[0];
      assert longer[1..] == rest + [day];
      assert (ideas + more)[..perDay] == ideas[..perDay];
      assert (ideas + more)[perDay..] == restIdeas + more;
      calc {
        PlanOf(longer, perDay, ideas + more);
        DayRows(days[0], perDay, ideas[..perDay]) + PlanOf(rest + [day], perDay, restIdeas + more);
        DayRows(days[0], perDay, ideas[..perDay]) + (PlanOf(rest, perDay, restIdeas) + DayRows(day, perDay, more));
        PlanOf(days, perDay, ideas) + DayRows(day, perDay, more);
      }
    }
  }

  /** One more factor of `p`. */
  lemma MulSucc(n: nat, p: nat)
    ensures (n + 1) * p == n * p + p
  {
  }

  /** A positive multiple of `p` is at least `p`. */
  lemma MulAtLeast(a: nat, p: nat)
    requires 1 <= a
    ensures a * p >= p
  {
  }

  /** Quotient and remainder are determined by the division identity. */
  lemma DivModUnique(k: nat, p: nat, q: nat, r: nat)
    requires r < p && k == q * p + r
    ensures k / p == q && k % p == r
  {
    var q0, r0 := k / p, k % p;
    assert k == q0 * p + r0;
    if q0 < q {
      assert q * p == q0 * p + (q - q0) * p;
      MulAtLeast(q - q0, p);
      assert false;
    } else if q < q0 {
      assert q0 * p == q * p + (q0 - q) * p;
      MulAtLeast(q0 - q, p);
      assert false;
    }
  }

  /** Skipping one group of `p` rows lowers the quotient by one and keeps
      the remainder. */
  lemma DivModStep(k: nat, p: nat)
    requires 0 < p <= k
    ensures (k - p) / p + 1 == k / p && (k - p) % p == k % p
  {
    var q, r := (k - p) / p, (k - p) % p;
    assert k == (q + 1) * p + r;
    DivModUnique(k, p, q + 1, r);
  }

  /** Row `k` of a planner belongs to day list entry `k / perDay` and has
      post number `k % perDay + 1`. */
  lemma {:induction false} PlanOfRowAt(days: seq<string>, perDay: nat, ideas: seq<string>, k: nat)
    requires |ideas| == |days| * perDay && k < |days| * perDay
    ensures 0 < perDay && k / perDay < |days|
    ensures PlanOf(days, perDay, ideas)[k] == Row(days[k / perDay], k % perDay + 1, ideas[k])
    decreases |days|
  {
    assert |days| != 0;
    assert perDay != 0;
    assert |days| * perDay == perDay + (|days| - 1) * perDay;
    var head := DayRows(days[0], perDay, ideas[..perDay]);
    var tail := PlanOf(days[1..], perDay, ideas[perDay..]);
    assert PlanOf(days, perDay, ideas) == head + tail;
    if k < perDay {
      DivModUnique(k, perDay, 0, k);
      assert head[k] == Row(days[0], k + 1, ideas[k]);
    } else {
      PlanOfRowAt(days[1..], perDay, ideas[perDay..], k - perDay);
      DivModStep(k, perDay);
      assert days[1..][(k - perDay) / perDay] == days[k / perDay];
      assert ideas[perDay..][k - perDay] == ideas[k];
    }
  }

  /** Multiplying both sides of `a <= b` by the same `p` keeps the order. */
  lemma MulLe(a: nat, b: nat, p: nat)
    requires a <= b
    ensures a * p <= b * p
  {
  }

  /** Row `k` of the plan is post number `k % perDay + 1` of day
      `k / perDay + 1`, and carries the idea returned by the k-th call. */
  lemma PlanRowAt(numDays: nat, perDay: nat, ideas: seq<string>, k: nat)
    requires |ideas| == numDays * perDay && k < numDays * perDay
    ensures |Plan(numDays, perDay, ideas)| == numDays * perDay
    ensures Plan(numDays, perDay, ideas)[k] == Row(DayLabel(k / perDay + 1), k % perDay + 1, ideas[k])
  {
    PlanOfRowAt(DaysList(numDays), perDay, ideas, k);
  }

  /** The rows of day `d + 1` form the consecutive block `d * perDay ..
      (d + 1) * perDay`: all labelled "Day d+1", with post numbers 1, 2, ...,
      perDay in order, carrying that block's ideas. */
  lemma PlanDayGroup(numDays: nat, perDay: nat, ideas: seq<string>, d: nat)
    requires |ideas| == numDays * perDay && d < numDays
    ensures (d + 1) * perDay <= numDays * perDay
    ensures Plan(numDays, perDay, ideas)[d * perDay .. (d + 1) * perDay]
         == DayRows(DayLabel(d + 1), perDay, ideas[d * perDay .. (d + 1) * perDay])
  {
    MulLe(d + 1, numDays, perDay);
    assert (d + 1) * perDay == d * perDay + perDay;
    var plan := Plan(numDays, perDay, ideas);
    var block := plan[d * perDay .. (d + 1) * perDay];
    var expected := DayRows(DayLabel(d + 1), perDay, ideas[d * perDay .. (d + 1) * perDay]);
    forall j | 0 <= j < perDay
      ensures block[j] == expected[j]
    {
      PlanRowAt(numDays, perDay, ideas, d * perDay + j);
      DivModUnique(d * perDay + j, perDay, d, j);
    }
  }

  /** Row `k` falls in block `n` (1-based) of `p` rows exactly when its
      quotient by `p` is `n - 1`. */
  lemma BlockOfRow(k: nat, p: nat, n: nat)
    requires 0 < p
    ensures (k / p + 1 == n) == (1 <= n && (n - 1) * p <= k < n * p)
  {
    var q, r := k / p, k % p;
    assert k == q * p + r;
    assert (q + 1) * p == q * p + p;
    if 1 <= n && (n - 1) * p <= k < n * p {
      assert n * p == (n - 1) * p + p;
      DivModUnique(k, p, n - 1, k - (n - 1) * p);
    }
  }

  /** A row carries the label "Day n" exactly when it lies in block `n` of
      the plan: each day label occurs on `perDay` consecutive rows and
      nowhere else. */
  lemma RowsOfDay(numDays: nat, perDay: nat, ideas: seq<string>, k: nat, n: nat)
    requires |ideas| == numDays * perDay && k < numDays * perDay
    ensures |Plan(numDays, perDay, ideas)| == numDays * perDay
    ensures (Plan(numDays, perDay, ideas)[k].day == DayLabel(n))
        == (1 <= n && (n - 1) * perDay <= k < n * perDay)
  {
    PlanRowAt(numDays, perDay, ideas, k);
    DayLabelInjective(k / perDay + 1, n);
    BlockOfRow(k, perDay, n);
  }

  /** The plan of the first `d` days is a prefix of the plan of any longer
      run: rows, once appended, are never changed by later days. */
  lemma PlanPrefix(numDays: nat, perDay: nat, ideas: seq<string>, d: nat)
    requires |ideas| == numDays * perDay && d <= numDays
    ensures d * perDay <= numDays * perDay
    ensures Plan(d, perDay, ideas[..d * perDay]) == Plan(numDays, perDay, ideas)[..d * perDay]
  {
    MulLe(d, numDays, perDay);
    var short := Plan(d, perDay, ideas[..d * perDay]);
    var long := Plan(numDays, perDay, ideas);
    forall k | 0 <= k < d * perDay
      ensures short[k] == long[k]
    {
      PlanRowAt(d, perDay, ideas[..d * perDay], k);
      PlanRowAt(numDays, perDay, ideas, k);
    }
  }

  /** With the input widgets' bounds (1 to 100 days, 1 to 10 posts per day)
      the plan is never empty and has at most 1000 rows. */
  lemma PlanSizeWithinInputBounds(numDays: nat, perDay: nat, ideas: seq<string>)
    requires 1 <= numDays <= 100 && 1 <= perDay <= 10
    requires |ideas| == numDays * perDay
    ensures 1 <= |Plan(numDays, perDay, ideas)| <= 1000
  {
  }

  /** With the widgets' default values (5 days, 2 posts per day) the plan
      has ten rows: "Day 1" twice, then "Day 2" twice, up to "Day 5", with
      post numbers alternating 1, 2. */
  lemma DefaultRequestPlan(ideas: seq<string>)
    requires |ideas| == 10
    ensures |Plan(5, 2, ideas)| == 10
    ensures seq(10, k requires 0 <= k < 10 => (Plan(5, 2, ideas)[k].day, Plan(5, 2, ideas)[k].postNum))
         == [("Day 1", 1), ("Day 1", 2), ("Day 2", 1), ("Day 2", 2), ("Day 3", 1),
             ("Day 3", 2), ("Day 4", 1), ("Day 4", 2), ("Day 5", 1), ("Day 5", 2)]
  {
    var plan := Plan(5, 2, ideas);
    forall k | 0 <= k < 10
      ensures plan[k].day == DayLabel(k / 2 + 1) && plan[k].postNum == k % 2 + 1
    {
      PlanRowAt(5, 2, ideas, k);
    }
    assert DayLabel(1) == "Day 1" && DayLabel(2) == "Day 2" && DayLabel(3) == "Day 3";
    assert DayLabel(4) == "Day 4" && DayLabel(5) == "Day 5";
  }

  /** The next reply of the day becomes the day's next post number. */
  lemma DayRowsSnoc(day: string, respond: (string, nat) -> string, topic: string, start: nat, n: nat)
    ensures DayRows(day, n, Replies(respond, topic, start, n)) + [Row(day, n + 1, respond(topic, start + n))]
         == DayRows(day, n + 1, Replies(respond, topic, start, n + 1))
  {
  }

  /** One more call with the same topic. */
  lemma TopicsSnoc(topic: string, n: nat)
    ensures Topics(topic, n) + [topic] == Topics(topic, n + 1)
  {
  }

  /** The topics of `m + n` calls split after the first `m`. */
  lemma TopicsSplit(topic: string, m: nat, n: nat)
    ensures Topics(topic, m) + Topics(topic, n) == Topics(topic, m + n)
  {
  }

  /** The replies of `m + n` calls split after the first `m`. */
  lemma RepliesSplit(respond: (string, nat) -> string, topic: string, start: nat, m: nat, n: nat)
    ensures Replies(respond, topic, start, m) + Replies(respond, topic, start + m, n) == Replies(respond, topic, start, m + n)
  {
  }

  /** Finishing day `i` of the day list: the rows built so far plus that
      day's rows are the plan of the first `i + 1` days. */
  lemma PlanOfNextDay(days: seq<string>, i: nat, perDay: nat, respond: (string, nat) -> string, topic: string, start: nat)
    requires i < |days|
    ensures PlanOf(days[..i], perDay, Replies(respond, topic, start, i * perDay))
            + DayRows(days[i], perDay, Replies(respond, topic, start + i * perDay, perDay))
         == PlanOf(days[..i + 1], perDay, Replies(respond, topic, start, (i + 1) * perDay))
  {
    var base := i * perDay;
    MulSucc(i, perDay);
    var done := Replies(respond, topic, start, base);
    var todays := Replies(respond, topic, start + base, perDay);
    PlanOfAppendDay(days[..i], days[i], perDay, done, todays);
    RepliesSplit(respond, topic, start, base, perDay);
    assert days[..i + 1] == days[..i] + [days[i]];
  }

  /** The inner loop of the planner-building block (Contentplanner.py:38-44):
      for post numbers 1 .. postsPerDay, call the source once with the topic
      and append the row (day, post number, reply). */
  method AppendDay(topic: string, day: string, postsPerDay: nat, source: ContentSource, planner: seq<Row>)
    returns (extended: seq<Row>)
    modifies source
    ensures source.calls == old(source.calls) + Topics(topic, postsPerDay)
    ensures extended == planner + DayRows(day, postsPerDay, Replies(source.respond, topic, |old(source.calls)|, postsPerDay))
  {
    ghost var start := |source.calls|;
    ghost var respond := source.respond;
    ghost var todays: seq<Row> := [];
    extended := planner;
    var postNum := 1;
    while postNum <= postsPerDay
      invariant 1 <= postNum <= postsPerDay + 1
      invariant source.calls == old(source.calls) + Topics(topic, postNum - 1)
      invariant todays == DayRows(day, postNum - 1, Replies(respond, topic, start, postNum - 1))
      invariant extended == planner + todays
    {
      var idea := source.Generate(topic);
      DayRowsSnoc(day, respond, topic, start, postNum - 1);
      TopicsSnoc(topic, postNum - 1);
      extended := extended + [Row(day, postNum, idea)];
      todays := todays + [Row(day, postNum, idea)];
      postNum := postNum + 1;
    }
  }

  /** The planner-building block of Contentplanner.py:35-44: the day list is
      built first; then, day by day and post number by post number, the
      source is called once with the topic and its reply becomes the next
      row. The source receives exactly `numDays * postsPerDay` calls, all with
      `topic`, and the planner is the plan of the replies in call order. */
  method BuildPlan(topic: string, numDays: nat, postsPerDay: nat, source: ContentSource) returns (planner: seq<Row>)
    modifies source
    ensures source.calls == old(source.calls) + Topics(topic, numDays * postsPerDay)
    ensures planner == Plan(numDays, postsPerDay, Replies(source.respond, topic, |old(source.calls)|, numDays * postsPerDay))
  {
    ghost var start := |source.calls|;
    ghost var respond := source.respond;
    planner := [];
    var daysList := DaysList(numDays);
    var i := 0;
    while i < |daysList|
      invariant 0 <= i <= |daysList|
      invariant source.calls == old(source.calls) + Topics(topic, i * postsPerDay)
      invariant planner == PlanOf(daysList[..i], postsPerDay, Replies(respond, topic, start, i * postsPerDay))
    {
      planner := AppendDay(topic, daysList[i], postsPerDay, source, planner);
      TopicsSplit(topic, i * postsPerDay, postsPerDay);
      PlanOfNextDay(daysList, i, postsPerDay, respond, topic, start);
      i := i + 1;
    }
    assert daysList[..i] == daysList;
  }
}
