/** Redis key names. The dequeue script derives the inflight and lease keys from the ready key by
    replacing every ":ready"; the Go code formats them from the queue name. */
module Keys {

  const READY := ":ready"
  const INFLIGHT := ":inflight"
  const LEASE := ":lease"
  const PREFIX := "dispatchhub:queue:"

  function ReadyKey(queue: string): string { PREFIX + queue + READY }
  function InflightKey(queue: string): string { PREFIX + queue + INFLIGHT }
  function LeaseKey(queue: string): string { PREFIX + queue + LEASE }

  predicate Contains(s: string, pattern: string) {
    pattern <= s || (s != [] && Contains(s[1..], pattern))
  }

  /** Lua's string.gsub for a pattern without magic characters: leftmost matches, no overlap. */
  function ReplaceAll(s: string, pattern: string, with: string): string
    requires pattern != []
  {
    if s == [] then []
    else if pattern <= s then with + ReplaceAll(s[|pattern|..], pattern, with)
    else [s[0]] + ReplaceAll(s[1..], pattern, with)
  }

  /** ":ready" has its only colon in front, so no match straddles the point where it is appended. */
  lemma NoMatchAcrossSeam(s: string)
    requires s != []
    ensures READY <= s + READY <==> READY <= s
  {
    var t := s + READY;
    if |READY| <= |s| {
      assert t[..|READY|] == s[..|READY|];
    } else {
      assert t[|s|] == ':' && READY[|s|] != ':';
    }
  }

  /** One character off the front, when no match begins there. */
  lemma Peel(s: string, with: string)
    requires s != [] && !(READY <= s)
    ensures (s + READY)[1..] == s[1..] + READY
    ensures ReplaceAll(s + READY, READY, with) == [s[0]] + ReplaceAll(s[1..] + READY, READY, with)
  {
    NoMatchAcrossSeam(s);
    assert (s + READY)[1..] == s[1..] + READY;
  }

  /** A match off the front. */
  lemma Match(s: string, with: string)
    requires READY <= s
    ensures ReplaceAll(s + READY, READY, with) == with + ReplaceAll(s[|READY|..] + READY, READY, with)
  {
    NoMatchAcrossSeam(s);
    assert (s + READY)[|READY|..] == s[|READY|..] + READY;
  }

  lemma {:induction false} ReplaceOnlySuffix(s: string, with: string)
    requires !Contains(s, READY)
    ensures ReplaceAll(s + READY, READY, with) == s + with
  {
    if s == [] {
      assert s + READY == READY;
      assert READY[|READY|..] == [];
    } else {
      Peel(s, with);
      ReplaceOnlySuffix(s[1..], with);
    }
  }

  lemma {:induction false} AppendedIsFound(s: string)
    ensures Contains(s + READY, READY)
  {
    if s == [] {
      assert s + READY == READY;
    } else {
      AppendedIsFound(s[1..]);
      assert (s + READY)[1..] == s[1..] + READY;
    }
  }

  /** Each match costs three characters more with ":inflight". */
  lemma {:induction false} ReplaceGrows(s: string)
    ensures |ReplaceAll(s, READY, INFLIGHT)| >= |s| + if Contains(s, READY) then 3 else 0
  {
    if s != [] {
      if READY <= s {
        ReplaceGrows(s[|READY|..]);
      } else {
        ReplaceGrows(s[1..]);
      }
    }
  }

  /** A further match before the suffix makes the derived key longer than the formatted one. */
  lemma {:induction false} ReplaceTwice(s: string)
    requires Contains(s, READY)
    ensures |ReplaceAll(s + READY, READY, INFLIGHT)| > |s + INFLIGHT|
  {
    if READY <= s {
      Match(s, INFLIGHT);
      var rest := s[|READY|..];
      AppendedIsFound(rest);
      ReplaceGrows(rest + READY);
    } else {
      Peel(s, INFLIGHT);
      ReplaceTwice(s[1..]);
    }
  }

  /** The first match changes the character after its colon, so the derived lease key differs. */
  lemma {:induction false} ReplaceDiffers(s: string)
    requires Contains(s, READY)
    ensures ReplaceAll(s + READY, READY, LEASE) != s + LEASE
  {
    if READY <= s {
      Match(s, LEASE);
      assert ReplaceAll(s + READY, READY, LEASE)[1] == 'l' && (s + LEASE)[1] == s[1] == 'r';
    } else {
      Peel(s, LEASE);
      ReplaceDiffers(s[1..]);
      var derived := ReplaceAll(s[1..] + READY, READY, LEASE);
      assert ([s[0]] + derived)[1..] == derived;
      assert (s + LEASE)[1..] == s[1..] + LEASE;
    }
  }

  /** No match begins in a text whose colons are each followed by something other than "r". */
  lemma {:induction false} InertPrefix(p: string, s: string)
    requires forall i | 0 <= i < |p| :: p[i] != ':' || (i + 1 < |p| && p[i + 1] != 'r')
    ensures Contains(p + s, READY) <==> Contains(s, READY)
  {
    if p == [] {
      assert p + s == s;
    } else {
      var whole := p + s;
      assert whole[0] == p[0];
      if p[0] == ':' {
        assert whole[1] == p[1] != READY[1];
      }
      assert whole[1..] == p[1..] + s;
      InertPrefix(p[1..], s);
    }
  }

  /** The script and the Go code address the same inflight and lease structures exactly for the
      queue names that do not bring a ":ready" of their own. */
  lemma DerivedKeysAgreeIff(queue: string)
    ensures ReplaceAll(ReadyKey(queue), READY, INFLIGHT) == InflightKey(queue)
            <==> !Contains(":" + queue, READY)
    ensures ReplaceAll(ReadyKey(queue), READY, LEASE) == LeaseKey(queue)
            <==> !Contains(":" + queue, READY)
  {
    var s := PREFIX + queue;
    assert s == "dispatchhub:queue" + (":" + queue);
    InertPrefix("dispatchhub:queue", ":" + queue);
    if Contains(s, READY) {
      ReplaceTwice(s);
      ReplaceDiffers(s);
    } else {
      ReplaceOnlySuffix(s, INFLIGHT);
      ReplaceOnlySuffix(s, LEASE);
    }
  }

  // ----- which queue the script's keys belong to -----

  /** The queue names whose keys the script derives as the Go code formats them. */
  predicate Agrees(queue: string) {
    !Contains(":" + queue, READY)
  }

  /** The name after the replacement, its leading colon taken off again. */
  function Renamed(queue: string, with: string): string {
    var derived := ReplaceAll(":" + queue, READY, with);
    if derived == [] then [] else derived[1..]
  }

  /** The queue in whose inflight hash the dequeue script records a copy. */
  function InflightName(queue: string): string {
    Renamed(queue, INFLIGHT)
  }

  /** The queue in whose lease set the dequeue script records the default lease. */
  function LeaseName(queue: string): string {
    Renamed(queue, LEASE)
  }

  lemma {:induction false} ReplaceSuffix(s: string, with: string)
    ensures ReplaceAll(s + READY, READY, with) == ReplaceAll(s, READY, with) + with
  {
    if s == [] {
      assert s + READY == READY && READY[|READY|..] == [];
    } else if READY <= s {
      Match(s, with);
      ReplaceSuffix(s[|READY|..], with);
    } else {
      Peel(s, with);
      ReplaceSuffix(s[1..], with);
    }
  }

  lemma {:induction false} ReplaceAfterInert(p: string, s: string, with: string)
    requires forall i | 0 <= i < |p| :: p[i] != ':' || (i + 1 < |p| && p[i + 1] != 'r')
    ensures ReplaceAll(p + s, READY, with) == p + ReplaceAll(s, READY, with)
  {
    if p == [] {
      assert p + s == s;
    } else {
      var whole := p + s;
      assert whole[0] == p[0];
      if p[0] == ':' {
        assert whole[1] == p[1] != READY[1];
      }
      assert whole[1..] == p[1..] + s;
      ReplaceAfterInert(p[1..], s, with);
    }
  }

  /** A replaced text keeps its length with ":lease" and begins with what the original began with. */
  lemma {:induction false} ReplaceShape(s: string)
    ensures |ReplaceAll(s, READY, LEASE)| == |s|
    ensures s != [] && s[0] == ':' ==> forall with | with == INFLIGHT || with == LEASE ::
              ReplaceAll(s, READY, with) != [] && ReplaceAll(s, READY, with)[0] == ':'
  {
    if s != [] {
      if READY <= s {
        ReplaceShape(s[|READY|..]);
      } else {
        ReplaceShape(s[1..]);
      }
    }
  }

  lemma RenamedIs(queue: string, with: string)
    requires with == INFLIGHT || with == LEASE
    ensures ReplaceAll(":" + queue, READY, with) == ":" + Renamed(queue, with)
  {
    ReplaceShape(":" + queue);
  }

  /** The keys the script writes to are the formatted keys of the derived names. */
  lemma ScriptKeys(queue: string)
    ensures ReplaceAll(ReadyKey(queue), READY, INFLIGHT) == InflightKey(InflightName(queue))
    ensures ReplaceAll(ReadyKey(queue), READY, LEASE) == LeaseKey(LeaseName(queue))
  {
    forall with | with == INFLIGHT || with == LEASE
      ensures ReplaceAll(ReadyKey(queue), READY, with) == PREFIX + Renamed(queue, with) + with
    {
      var s := ":" + queue;
      assert ReadyKey(queue) == ("dispatchhub:queue" + s) + READY;
      ReplaceSuffix("dispatchhub:queue" + s, with);
      ReplaceAfterInert("dispatchhub:queue", s, with);
      RenamedIs(queue, with);
      assert "dispatchhub:queue" + (":" + Renamed(queue, with)) == PREFIX + Renamed(queue, with);
    }
  }

  /** Both derived names are the queue's own if it agrees; if not, all three are different. */
  lemma NamesApart(queue: string)
    ensures Agrees(queue) ==> InflightName(queue) == queue && LeaseName(queue) == queue
    ensures !Agrees(queue) ==>
              InflightName(queue) != queue && LeaseName(queue) != queue && InflightName(queue) != LeaseName(queue)
  {
    var s := ":" + queue;
    RenamedIs(queue, INFLIGHT);
    RenamedIs(queue, LEASE);
    ReplaceSuffix(s, INFLIGHT);
    ReplaceSuffix(s, LEASE);
    if Agrees(queue) {
      ReplaceOnlySuffix(s, INFLIGHT);
      ReplaceOnlySuffix(s, LEASE);
      SameBeforeSuffix(ReplaceAll(s, READY, INFLIGHT), s, INFLIGHT);
      SameBeforeSuffix(ReplaceAll(s, READY, LEASE), s, LEASE);
      assert s[1..] == queue;
    } else {
      ReplaceShape(s);
      ReplaceGrows(s);
      ReplaceDiffers(s);
    }
  }

  lemma SameBeforeSuffix(a: string, b: string, suffix: string)
    requires a + suffix == b + suffix
    ensures a == b
  {
    assert |a| == |b|;
    assert a == (a + suffix)[..|a|] && b == (b + suffix)[..|b|];
  }
}
