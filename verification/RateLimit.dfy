/** The token-bucket limiter, over exact reals (seconds and tokens), and the limiter per queue. */
module RateLimit {

  datatype Bucket = Bucket(rate: real, burst: int, tokens: real, last: real)

  function NewBucket(rate: real, burst: int, now: real): Bucket {
    Bucket(rate, burst, burst as real, now)
  }

  function MinReal(a: real, b: real): real {
    if a > b then b else a
  }

  /** What a bucket earns between two clocks. */
  function Gain(rate: real, from: real, to: real): real {
    (to - from) * rate
  }

  function Refilled(b: Bucket, now: real): Bucket {
    b.(tokens := MinReal(b.tokens + Gain(b.rate, b.last, now), b.burst as real), last := now)
  }

  predicate Admits(b: Bucket, now: real) {
    Refilled(b, now).tokens >= 1.0
  }

  function After(b: Bucket, now: real): Bucket {
    var r := Refilled(b, now);
    if Admits(b, now) then r.(tokens := r.tokens - 1.0) else r
  }

  predicate Sane(b: Bucket) {
    b.rate >= 0.0 && b.burst >= 0 && 0.0 <= b.tokens <= b.burst as real
  }

  // ----- arithmetic -----

  lemma ProductSign(a: real, b: real)
    requires a >= 0.0 && b >= 0.0
    ensures a * b >= 0.0
  {
  }

  lemma Earned(rate: real, from: real, mid: real, to: real)
    requires rate >= 0.0 && from <= mid <= to
    ensures Gain(rate, from, mid) >= 0.0 && Gain(rate, mid, to) >= 0.0
    ensures Gain(rate, from, to) == Gain(rate, from, mid) + Gain(rate, mid, to)
  {
    ProductSign(mid - from, rate);
    ProductSign(to - mid, rate);
  }

  /** Refilling twice is refilling once. */
  lemma RefillComposes(b: Bucket, mid: real, now: real)
    requires Sane(b) && b.last <= mid <= now
    ensures Refilled(Refilled(b, mid), now) == Refilled(b, now)
  {
  }

  /** The bucket never holds fewer than 0 or more than burst tokens. */
  lemma StaysSane(b: Bucket, now: real)
    requires Sane(b) && b.last <= now
    ensures Sane(Refilled(b, now)) && Sane(After(b, now)) && After(b, now).last == now
    ensures After(b, now).rate == b.rate && After(b, now).burst == b.burst
  {
    hide Gain;
    Earned(b.rate, b.last, b.last, now);
  }

  /** A bucket made at the first call decides like one that was full all along. */
  lemma LazyIsFull(rate: real, burst: int, made: real, now: real)
    requires rate >= 0.0 && burst >= 0 && made <= now
    ensures Refilled(NewBucket(rate, burst, made), now) == NewBucket(rate, burst, now)
    ensures After(NewBucket(rate, burst, made), now) == After(NewBucket(rate, burst, now), now)
    ensures Admits(NewBucket(rate, burst, made), now) <==> Admits(NewBucket(rate, burst, now), now)
  {
  }

  // ----- one bucket over a sequence of calls -----

  predicate Ordered(from: real, clocks: seq<real>) {
    && (forall i | 0 <= i < |clocks| :: from <= clocks[i])
    && (forall i, j | 0 <= i < j < |clocks| :: clocks[i] <= clocks[j])
  }

  function Run(b: Bucket, clocks: seq<real>): Bucket {
    if clocks == [] then b else After(Run(b, clocks[..|clocks| - 1]), clocks[|clocks| - 1])
  }

  /** The answers of Allow, call by call. */
  function Decisions(b: Bucket, clocks: seq<real>): (r: seq<bool>)
    ensures |r| == |clocks|
  {
    if clocks == [] then []
    else
      var before := clocks[..|clocks| - 1];
      Decisions(b, before) + [Admits(Run(b, before), clocks[|clocks| - 1])]
  }

  lemma {:induction false} RunSane(b: Bucket, clocks: seq<real>)
    requires Sane(b) && Ordered(b.last, clocks)
    ensures Sane(Run(b, clocks)) && Run(b, clocks).rate == b.rate && Run(b, clocks).burst == b.burst
    ensures Run(b, clocks).last == if clocks == [] then b.last else clocks[|clocks| - 1]
  {
    if clocks != [] {
      RunSane(b, clocks[..|clocks| - 1]);
      StaysSane(Run(b, clocks[..|clocks| - 1]), clocks[|clocks| - 1]);
    }
  }

  /** Calls answered yes whose clock lies in the window. */
  function AdmittedIn(b: Bucket, clocks: seq<real>, from: real, to: real): nat {
    if clocks == [] then 0
    else
      var before, now := clocks[..|clocks| - 1], clocks[|clocks| - 1];
      AdmittedIn(b, before, from, to) + if from <= now <= to && Admits(Run(b, before), now) then 1 else 0
  }

  function MaxReal(a: real, b: real): real {
    if a < b then b else a
  }

  /** Tokens left plus admissions never exceed a full bucket plus what the window has earned so far. */
  lemma {:induction false} WindowBalance(b: Bucket, clocks: seq<real>, from: real, to: real)
    requires Sane(b) && Ordered(b.last, clocks) && from <= to
    ensures Run(b, clocks).last < from ==> AdmittedIn(b, clocks, from, to) == 0
    ensures Run(b, clocks).last <= to ==>
              Run(b, clocks).tokens + AdmittedIn(b, clocks, from, to) as real
              <= b.burst as real + Gain(b.rate, from, MaxReal(Run(b, clocks).last, from))
    ensures AdmittedIn(b, clocks, from, to) as real <= b.burst as real + Gain(b.rate, from, to)
  {
    hide Gain;
    RunSane(b, clocks);
    Earned(b.rate, from, from, to);
    if clocks != [] {
      var before, now := clocks[..|clocks| - 1], clocks[|clocks| - 1];
      WindowBalance(b, before, from, to);
      RunSane(b, before);
      if now <= to {
        BalanceStep(Run(b, before), AdmittedIn(b, before, from, to), from, now);
        Earned(b.rate, from, MaxReal(now, from), to);
      }
    } else if b.last <= to {
      Earned(b.rate, from, MaxReal(b.last, from), to);
    }
  }

  lemma BalanceStep(s: Bucket, admitted: nat, from: real, now: real)
    requires Sane(s) && s.last <= now
    requires s.tokens + admitted as real <= s.burst as real + Gain(s.rate, from, MaxReal(s.last, from))
    requires s.last < from ==> admitted == 0
    ensures
      var more := admitted + if from <= now && Admits(s, now) then 1 else 0;
      After(s, now).tokens + more as real <= s.burst as real + Gain(s.rate, from, MaxReal(now, from))
  {
    hide Gain;
    Earned(s.rate, from, MaxReal(s.last, from), MaxReal(now, from));
    Earned(s.rate, from, from, MaxReal(now, from));
  }

  /** In any window, over any sequence of calls, at most burst + rate * length calls are admitted. */
  lemma WindowBound(b: Bucket, clocks: seq<real>, from: real, to: real)
    requires Sane(b) && Ordered(b.last, clocks) && from <= to
    ensures AdmittedIn(b, clocks, from, to) as real <= b.burst as real + (to - from) * b.rate
  {
    hide *;
    WindowBalance(b, clocks, from, to);
    GainIs(b.rate, from, to);
  }

  lemma GainIs(rate: real, from: real, to: real)
    ensures Gain(rate, from, to) == (to - from) * rate
  {
  }

  // ----- a call is denied only at the bound -----

  /** There is always a window that the admissions fill exactly: from the last moment at which the bucket was full. */
  lemma {:induction false} TightWindow(b: Bucket, clocks: seq<real>, to: real) returns (from: real)
    requires Sane(b) && b.tokens == b.burst as real && Ordered(b.last, clocks)
    requires b.last <= to && forall t | t in clocks :: t <= to
    ensures b.last <= from <= Run(b, clocks).last
    ensures Run(b, clocks).tokens + AdmittedIn(b, clocks, from, to) as real
            == b.burst as real + Gain(b.rate, from, Run(b, clocks).last)
  {
    hide Gain;
    RunSane(b, clocks);
    from := b.last;
    Earned(b.rate, from, from, from);
    if clocks != [] {
      var before, now := clocks[..|clocks| - 1], clocks[|clocks| - 1];
      var mid := Run(b, before);
      RunSane(b, before);
      assert forall t | t in before :: t in clocks;
      from := TightWindow(b, before, to);
      assert now in clocks;
      if mid.tokens + Gain(b.rate, mid.last, now) <= b.burst as real {
        Earned(b.rate, from, mid.last, now);
      } else {
        from := now;
        WindowBalance(b, before, now, to);
        Earned(b.rate, now, now, now);
      }
    }
  }

  lemma AdmittedOneMore(b: Bucket, clocks: seq<real>, now: real, from: real)
    requires from <= now
    ensures AdmittedIn(b, clocks + [now], from, now)
            == AdmittedIn(b, clocks, from, now) + if Admits(Run(b, clocks), now) then 1 else 0
  {
    assert (clocks + [now])[..|clocks|] == clocks;
  }

  /** With one more call the window from `from` to `now` would still hold no more than it may. */
  predicate HasRoom(b: Bucket, clocks: seq<real>, from: real, now: real) {
    AdmittedIn(b, clocks, from, now) as real + 1.0 <= b.burst as real + (now - from) * b.rate
  }

  lemma HasRoomIs(b: Bucket, clocks: seq<real>, from: real, now: real)
    ensures HasRoom(b, clocks, from, now)
            <==> AdmittedIn(b, clocks, from, now) as real + 1.0 <= b.burst as real + Gain(b.rate, from, now)
  {
  }

  /** The exact rule. A bucket that starts full admits a call if and only if every window that ends with it has room
      for one more: at most burst + rate * length admissions. */
  lemma AdmitsIff(rate: real, burst: int, start: real, clocks: seq<real>, now: real)
    requires rate >= 0.0 && burst >= 0 && Ordered(start, clocks) && start <= now && forall t | t in clocks :: t <= now
    ensures
      var b := NewBucket(rate, burst, start);
      Admits(Run(b, clocks), now) <==> forall from | start <= from <= now :: HasRoom(b, clocks, from, now)
  {
    hide HasRoom, Admits, AdmittedIn, Run, Gain;
    var b := NewBucket(rate, burst, start);
    if Admits(Run(b, clocks), now) {
      forall from | start <= from <= now ensures HasRoom(b, clocks, from, now) {
        AdmittedHadRoom(b, clocks, from, now);
      }
    } else {
      var from := DeniedAtBound(b, clocks, now);
    }
  }

  lemma AdmittedHadRoom(b: Bucket, clocks: seq<real>, from: real, now: real)
    requires Sane(b) && Ordered(b.last, clocks) && b.last <= now && from <= now
    requires (forall t | t in clocks :: t <= now) && Admits(Run(b, clocks), now)
    ensures HasRoom(b, clocks, from, now)
  {
    hide HasRoom, Admits, AdmittedIn, Run, Gain;
    OrderedMore(b.last, clocks, now);
    WindowBalance(b, clocks + [now], from, now);
    AdmittedOneMore(b, clocks, now, from);
    HasRoomIs(b, clocks, from, now);
  }

  lemma DeniedAtBound(b: Bucket, clocks: seq<real>, now: real) returns (from: real)
    requires Sane(b) && b.tokens == b.burst as real && Ordered(b.last, clocks) && b.last <= now
    requires (forall t | t in clocks :: t <= now) && !Admits(Run(b, clocks), now)
    ensures b.last <= from <= now && !HasRoom(b, clocks, from, now)
  {
    hide HasRoom, AdmittedIn, Run, Gain;
    var mid := Run(b, clocks);
    RunSane(b, clocks);
    LastIsMember(clocks);
    from := TightWindow(b, clocks, now);
    if mid.tokens + Gain(b.rate, mid.last, now) <= b.burst as real {
      Earned(b.rate, from, mid.last, now);
    } else {
      from := now;
      Earned(b.rate, now, now, now);
    }
    HasRoomIs(b, clocks, from, now);
  }

  lemma LastIsMember(clocks: seq<real>)
    ensures clocks != [] ==> clocks[|clocks| - 1] in clocks
  {
  }

  // ----- denied calls leave no trace -----

  lemma RunConcat(b: Bucket, pre: seq<real>, now: real)
    ensures Run(b, pre + [now]) == After(Run(b, pre), now)
    ensures Decisions(b, pre + [now]) == Decisions(b, pre) + [Admits(Run(b, pre), now)]
  {
  }

  lemma RunNothing(b: Bucket)
    ensures Run(b, []) == b && Decisions(b, []) == []
  {
  }

  /** After one more call the bucket is what it would be without the denied one. */
  lemma DeniedForgotten(b: Bucket, denied: real, now: real)
    requires Sane(b) && b.last <= denied <= now && !Admits(b, denied)
    ensures After(After(b, denied), now) == After(b, now) && (Admits(After(b, denied), now) <==> Admits(b, now))
  {
    hide Gain;
    RefillComposes(b, denied, now);
  }

  /** Taking a denied call out of a trace changes no other answer. */
  lemma {:induction false} DeniedIsInvisible(b: Bucket, pre: seq<real>, denied: real, post: seq<real>)
    requires Sane(b) && Ordered(b.last, pre + [denied] + post) && !Admits(Run(b, pre), denied)
    ensures Decisions(b, pre + [denied] + post) == Decisions(b, pre) + [false] + Decisions(b, pre + post)[|pre|..]
    ensures post != [] ==> Run(b, pre + [denied] + post) == Run(b, pre + post)
  {
    hide After, Admits, Refilled, Gain, Run, Decisions;
    var clocks := pre + [denied] + post;
    if post == [] {
      assert pre + post == pre && clocks == pre + [denied];
      RunConcat(b, pre, denied);
    } else {
      var last, now := post[..|post| - 1], post[|post| - 1];
      assert pre + [denied] + last == clocks[..|clocks| - 1];
      DeniedIsInvisible(b, pre, denied, last);
      assert clocks == (pre + [denied] + last) + [now] && pre + post == (pre + last) + [now];
      RunConcat(b, pre + [denied] + last, now);
      RunConcat(b, pre + last, now);
      if last == [] {
        assert pre + [denied] + last == pre + [denied] && pre + last == pre;
        assert clocks[..|pre|] == pre && clocks[|pre|] == denied && clocks[|pre| + 1] == now;
        RunSane(b, pre);
        RunConcat(b, pre, denied);
        DeniedForgotten(Run(b, pre), denied, now);
      }
    }
  }

  // ----- one bucket per queue -----

  datatype Call = Call(queue: string, now: real)

  /** The bucket that answers a call: the queue's own, or a new one with the defaults. */
  function BucketFor(m: map<string, Bucket>, rate: real, burst: int, c: Call): Bucket {
    if c.queue in m then m[c.queue] else NewBucket(rate, burst, c.now)
  }

  function AfterCall(m: map<string, Bucket>, rate: real, burst: int, c: Call): map<string, Bucket> {
    m[c.queue := After(BucketFor(m, rate, burst, c), c.now)]
  }

  function AfterCalls(m: map<string, Bucket>, rate: real, burst: int, calls: seq<Call>): map<string, Bucket> {
    if calls == [] then m
    else AfterCall(AfterCalls(m, rate, burst, calls[..|calls| - 1]), rate, burst, calls[|calls| - 1])
  }

  /** The answers that callers of one queue got. */
  function AnswersFor(m: map<string, Bucket>, rate: real, burst: int, calls: seq<Call>, queue: string): seq<bool> {
    if calls == [] then []
    else
      var before, c := calls[..|calls| - 1], calls[|calls| - 1];
      var answers := AnswersFor(m, rate, burst, before, queue);
      if c.queue != queue then answers
      else answers + [Admits(BucketFor(AfterCalls(m, rate, burst, before), rate, burst, c), c.now)]
  }

  function ClocksOf(calls: seq<Call>, queue: string): seq<real> {
    if calls == [] then []
    else
      var clocks, c := ClocksOf(calls[..|calls| - 1], queue), calls[|calls| - 1];
      if c.queue == queue then clocks + [c.now] else clocks
  }

  /** The bucket a queue would have if all buckets existed from the start. */
  function Origin(m: map<string, Bucket>, rate: real, burst: int, start: real, queue: string): Bucket {
    if queue in m then m[queue] else NewBucket(rate, burst, start)
  }

  /** Other queues' calls, and when a bucket is made, change no answer: a queue is served exactly as by a
      bucket of its own that sees only its own calls. */
  lemma {:induction false} QueuesAreIsolated(
    m: map<string, Bucket>, rate: real, burst: int, start: real, calls: seq<Call>, queue: string)
    requires rate >= 0.0 && burst >= 0 && forall c | c in calls :: start <= c.now
    ensures AnswersFor(m, rate, burst, calls, queue)
            == Decisions(Origin(m, rate, burst, start, queue), ClocksOf(calls, queue))
    ensures
      var after, origin := AfterCalls(m, rate, burst, calls), Origin(m, rate, burst, start, queue);
      if queue in after then after[queue] == Run(origin, ClocksOf(calls, queue))
      else queue !in m && ClocksOf(calls, queue) == []
  {
    hide Gain, Refilled, After, Admits, Run, Decisions;
    RunNothing(Origin(m, rate, burst, start, queue));
    if calls != [] {
      var before, c := calls[..|calls| - 1], calls[|calls| - 1];
      QueuesAreIsolated(m, rate, burst, start, before, queue);
      if c.queue == queue {
        RunConcat(Origin(m, rate, burst, start, queue), ClocksOf(before, queue), c.now);
        LazyIsFull(rate, burst, start, c.now);
      }
    }
  }

  lemma {:induction false} ClocksOrdered(calls: seq<Call>, queue: string, start: real)
    requires forall c | c in calls :: start <= c.now
    requires forall i, j | 0 <= i < j < |calls| :: calls[i].now <= calls[j].now
    ensures Ordered(start, ClocksOf(calls, queue))
    ensures forall t | t in ClocksOf(calls, queue) :: t <= calls[|calls| - 1].now
  {
    if calls != [] {
      var before, now := calls[..|calls| - 1], calls[|calls| - 1].now;
      ClocksOrdered(before, queue, start);
      assert before != [] ==> before[|before| - 1].now <= now;
      OrderedMore(start, ClocksOf(before, queue), now);
    }
  }

  lemma OrderedMore(from: real, clocks: seq<real>, now: real)
    requires Ordered(from, clocks) && from <= now && forall t | t in clocks :: t <= now
    ensures Ordered(from, clocks + [now])
  {
    assert forall i | 0 <= i < |clocks| :: clocks[i] in clocks;
  }

  lemma OrderedEarlier(from: real, earlier: real, clocks: seq<real>)
    requires Ordered(from, clocks) && earlier <= from
    ensures Ordered(earlier, clocks)
  {
  }

  /** Yes-answers among them for calls inside the window. */
  function YesIn(clocks: seq<real>, answers: seq<bool>, from: real, to: real): nat
    requires |answers| == |clocks|
  {
    if clocks == [] then 0
    else
      var last := |clocks| - 1;
      YesIn(clocks[..last], answers[..last], from, to) + if from <= clocks[last] <= to && answers[last] then 1 else 0
  }

  lemma {:induction false} YesAreAdmitted(b: Bucket, clocks: seq<real>, from: real, to: real)
    ensures YesIn(clocks, Decisions(b, clocks), from, to) == AdmittedIn(b, clocks, from, to)
  {
    if clocks != [] {
      YesAreAdmitted(b, clocks[..|clocks| - 1], from, to);
      assert Decisions(b, clocks)[..|clocks| - 1] == Decisions(b, clocks[..|clocks| - 1]);
    }
  }

  /** The window bound for a queue of the shared limiter, whatever the other queues do. */
  lemma QueueWindowBound(
    m: map<string, Bucket>, rate: real, burst: int, start: real, calls: seq<Call>, queue: string, from: real, to: real)
    requires rate >= 0.0 && burst >= 0 && from <= to
    requires forall q | q in m :: Sane(m[q]) && m[q].last <= start
    requires forall c | c in calls :: start <= c.now
    requires forall i, j | 0 <= i < j < |calls| :: calls[i].now <= calls[j].now
    ensures |AnswersFor(m, rate, burst, calls, queue)| == |ClocksOf(calls, queue)|
    ensures
      var origin := Origin(m, rate, burst, start, queue);
      YesIn(ClocksOf(calls, queue), AnswersFor(m, rate, burst, calls, queue), from, to) as real
      <= origin.burst as real + (to - from) * origin.rate
  {
    hide Run, Decisions, AdmittedIn, ClocksOf, AnswersFor, AfterCalls, YesIn, Ordered;
    var origin := Origin(m, rate, burst, start, queue);
    assert Sane(origin) && origin.last <= start;
    QueuesAreIsolated(m, rate, burst, start, calls, queue);
    ClocksOrdered(calls, queue, start);
    OrderedEarlier(start, origin.last, ClocksOf(calls, queue));
    YesAreAdmitted(origin, ClocksOf(calls, queue), from, to);
    WindowBound(origin, ClocksOf(calls, queue), from, to);
  }

  // ----- the objects -----

  class Limiter {
    const rate: real
    const burst: int
    var tokens: real
    var lastTime: real

    ghost function View(): Bucket
      reads this
    {
      Bucket(rate, burst, tokens, lastTime)
    }

    constructor (rate: real, burst: int, now: real)
      ensures View() == NewBucket(rate, burst, now)
    {
      this.rate, this.burst := rate, burst;
      tokens, lastTime := burst as real, now;
    }

    method Refill(now: real)
      modifies this
      ensures View() == Refilled(old(View()), now)
    {
      var elapsed := now - lastTime;
      tokens := tokens + elapsed * rate;
      if tokens > burst as real {
        tokens := burst as real;
      }
      lastTime := now;
    }

    method Allow(now: real) returns (ok: bool)
      modifies this
      ensures ok <==> Admits(old(View()), now)
      ensures View() == After(old(View()), now)
    {
      Refill(now);
      if tokens >= 1.0 {
        tokens := tokens - 1.0;
        return true;
      }
      return false;
    }
  }

  class MultiQueueLimiter {
    var limiters: map<string, Limiter>
    const defaultRate: real
    const defaultBurst: int

    /** No two queues share a limiter. */
    ghost predicate Valid()
      reads this
    {
      forall p, q | p in limiters && q in limiters && p != q :: limiters[p] != limiters[q]
    }

    ghost function View(): map<string, Bucket>
      reads this, limiters.Values
    {
      map q | q in limiters :: limiters[q].View()
    }

    constructor (defaultRate: real, defaultBurst: int)
      ensures Valid() && View() == map[] && fresh(limiters.Values)
      ensures this.defaultRate == defaultRate && this.defaultBurst == defaultBurst
    {
      limiters := map[];
      this.defaultRate, this.defaultBurst := defaultRate, defaultBurst;
    }

    /** Replaces the queue's limiter by a full one. */
    method SetRate(queue: string, rate: real, burst: int, now: real)
      requires Valid()
      modifies this
      ensures Valid() && View() == old(View())[queue := NewBucket(rate, burst, now)]
      ensures fresh(limiters.Values - old(limiters.Values))
    {
      var lim := new Limiter(rate, burst, now);
      limiters := limiters[queue := lim];
    }

    method Allow(queue: string, now: real) returns (ok: bool)
      requires Valid()
      modifies this, limiters.Values
      ensures Valid() && fresh(limiters.Values - old(limiters.Values))
      ensures View() == AfterCall(old(View()), defaultRate, defaultBurst, Call(queue, now))
      ensures ok <==> Admits(BucketFor(old(View()), defaultRate, defaultBurst, Call(queue, now)), now)
    {
      var lim;
      if queue in limiters {
        lim := limiters[queue];
      } else {
        lim := new Limiter(defaultRate, defaultBurst, now);
        limiters := limiters[queue := lim];
      }
      ok := lim.Allow(now);
    }
  }
}
