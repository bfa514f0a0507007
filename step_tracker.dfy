/** A model of the step tracker and idea log: the walking session record, the
    guarded steps-per-minute rate, the fixed-capacity session log with its
    aggregate queries, and the small activity hierarchy with its metrics. */
module StepTrackerIdeaLog {

  /** Capacity of the session log. */
  const MaxSessions: int := 5

  datatype Option<T> = None | Some(value: T)

  // ---------------------------------------------------------------------------
  // Character style
  // ---------------------------------------------------------------------------

  /** The cosmetic style of a session; the program numbers the styles 1, 2, 3. */
  datatype CharacterStyle = Vampire | Hunter | Wizard

  /** The number a style carries in the program. */
  function StyleCode(c: CharacterStyle): (k: int)
    ensures 1 <= k <= 3
  {
    match c
    case Vampire => 1
    case Hunter => 2
    case Wizard => 3
  }

  /** The style a number stands for, if it stands for one. */
  function StyleOfCode(k: int): (c: Option<CharacterStyle>)
    ensures c.Some? <==> 1 <= k <= 3
    ensures c.Some? ==> StyleCode(c.value) == k
  {
    if k == 1 then Some(Vampire)
    else if k == 2 then Some(Hunter)
    else if k == 3 then Some(Wizard)
    else None
  }

  lemma StyleCodeRoundTrip(c: CharacterStyle)
    ensures StyleOfCode(StyleCode(c)) == Some(c)
  {
  }

  // ---------------------------------------------------------------------------
  // Walking sessions and their rate
  // ---------------------------------------------------------------------------

  /** One recorded walk: step count, duration in minutes, a free-text idea and
      a style. Minutes are a real number (the program stores a double). */
  datatype WalkSession = WalkSession(steps: int, minutes: real, idea: string, style: CharacterStyle)

  /** The value every slot of a fresh log holds. */
  const DefaultSession := WalkSession(0, 0.0, "", Vampire)

  /** The log accepts only sessions with positive steps and positive minutes. */
  predicate Accepted(s: WalkSession)
  {
    s.steps > 0 && s.minutes > 0.0
  }

  predicate AllAccepted(s: seq<WalkSession>)
  {
    forall i :: 0 <= i < |s| ==> Accepted(s[i])
  }

  /** Steps per minute of one session; 0 when the duration is not positive. */
  function StepsPerMinute(s: WalkSession): (r: real)
    ensures s.minutes <= 0.0 ==> r == 0.0
    ensures s.minutes > 0.0 ==> r * s.minutes == s.steps as real
    ensures Accepted(s) ==> r > 0.0
  {
    if s.minutes <= 0.0 then 0.0 else s.steps as real / s.minutes
  }

  // ---------------------------------------------------------------------------
  // Aggregates over a sequence of sessions (the specification of the log's
  // queries). Both folds take the last element off, the order in which the
  // log's loops add elements up.
  // ---------------------------------------------------------------------------

  function SumSteps(s: seq<WalkSession>): int
  {
    if s == [] then 0 else SumSteps(s[..|s| - 1]) + s[|s| - 1].steps
  }

  /** The per-session rates, in log order. */
  function Rates(s: seq<WalkSession>): seq<real>
  {
    seq(|s|, i requires 0 <= i < |s| => StepsPerMinute(s[i]))
  }

  function Sum(xs: seq<real>): real
  {
    if xs == [] then 0.0 else Sum(xs[..|xs| - 1]) + xs[|xs| - 1]
  }

  /** The mean of the per-session rates (not total steps over total minutes);
      0 for no sessions. */
  function MeanRate(s: seq<WalkSession>): real
  {
    if s == [] then 0.0 else Sum(Rates(s)) / (|s| as real)
  }

  lemma {:induction false} SumStepsAppend(a: seq<WalkSession>, b: seq<WalkSession>)
    ensures SumSteps(a + b) == SumSteps(a) + SumSteps(b)
    decreases |b|
  {
    if b == [] {
      assert a + b == a;
    } else {
      var last := |b| - 1;
      assert (a + b)[..|a + b| - 1] == a + b[..last];
      SumStepsAppend(a, b[..last]);
    }
  }

  /** The total does not depend on the order in which sessions were added. */
  lemma {:induction false} SumStepsPermutation(a: seq<WalkSession>, b: seq<WalkSession>)
    requires multiset(a) == multiset(b)
    ensures SumSteps(a) == SumSteps(b)
    decreases |a|
  {
    if a != [] {
      var x := a[|a| - 1];
      assert x in multiset(a);
      assert x in multiset(b);
      var j :| 0 <= j < |b| && b[j] == x;
      var rest := b[..j] + b[j + 1..];
      assert b == b[..j] + [x] + b[j + 1..];
      assert a == a[..|a| - 1] + [x];
      assert multiset(a) == multiset(a[..|a| - 1]) + multiset{x};
      assert multiset(b) == multiset(rest) + multiset{x} by {
        assert multiset(b) == multiset(b[..j]) + multiset{x} + multiset(b[j + 1..]);
      }
      assert multiset(a[..|a| - 1]) == multiset(a) - multiset{x};
      assert multiset(rest) == multiset(b) - multiset{x};
      SumStepsPermutation(a[..|a| - 1], rest);
      SumStepsAppend(b[..j] + [x], b[j + 1..]);
      SumStepsAppend(b[..j], [x]);
      SumStepsAppend(b[..j], b[j + 1..]);
      assert [x][..0] == [];
    }
  }

  lemma SumStepsOfPair(a: WalkSession, b: WalkSession)
    ensures SumSteps([a, b]) == a.steps + b.steps
  {
    assert [a][..0] == [];
    assert SumSteps([a]) == a.steps;
    assert [a, b][..1] == [a];
    assert SumSteps([a, b]) == SumSteps([a]) + b.steps;
  }

  /** Every accepted session contributes at least one step. */
  lemma {:induction false} SumStepsAtLeastLength(s: seq<WalkSession>)
    requires AllAccepted(s)
    ensures SumSteps(s) >= |s|
  {
    if s != [] {
      SumStepsAtLeastLength(s[..|s| - 1]);
    }
  }

  lemma ScaleByOneMore(c: real, n: real)
    ensures c * (n + 1.0) == c * n + c
  {
  }

  lemma DivisionWithinBounds(total: real, n: real, lo: real, hi: real)
    requires n > 0.0 && lo * n <= total <= hi * n
    ensures lo <= total / n <= hi
  {
    assert (total / n) * n == total;
  }

  lemma {:induction false} SumAtLeast(xs: seq<real>, lo: real)
    requires forall i :: 0 <= i < |xs| ==> lo <= xs[i]
    ensures lo * (|xs| as real) <= Sum(xs)
  {
    if xs != [] {
      var init := xs[..|xs| - 1];
      SumAtLeast(init, lo);
      ScaleByOneMore(lo, |init| as real);
    }
  }

  lemma {:induction false} SumAtMost(xs: seq<real>, hi: real)
    requires forall i :: 0 <= i < |xs| ==> xs[i] <= hi
    ensures Sum(xs) <= hi * (|xs| as real)
  {
    if xs != [] {
      var init := xs[..|xs| - 1];
      SumAtMost(init, hi);
      ScaleByOneMore(hi, |init| as real);
    }
  }

  lemma {:induction false} SumPositive(xs: seq<real>)
    requires xs != [] && forall i :: 0 <= i < |xs| ==> xs[i] > 0.0
    ensures Sum(xs) > 0.0
  {
    if |xs| > 1 {
      SumPositive(xs[..|xs| - 1]);
    }
  }

  /** The mean lies between the smallest and the largest per-session rate;
      in particular sessions that all walk at rate r average exactly r. */
  lemma MeanRateBounds(s: seq<WalkSession>, lo: real, hi: real)
    requires s != []
    requires forall i :: 0 <= i < |s| ==> lo <= StepsPerMinute(s[i]) <= hi
    ensures lo <= MeanRate(s) <= hi
  {
    var rates := Rates(s);
    assert forall i :: 0 <= i < |rates| ==> lo <= rates[i] <= hi;
    SumAtLeast(rates, lo);
    SumAtMost(rates, hi);
    DivisionWithinBounds(Sum(rates), |s| as real, lo, hi);
  }

  /** Over accepted sessions the mean rate is 0 exactly when there are none. */
  lemma MeanRateZeroIffEmpty(s: seq<WalkSession>)
    requires AllAccepted(s)
    ensures MeanRate(s) == 0.0 <==> s == []
  {
    if s != [] {
      SumPositive(Rates(s));
    }
  }

  // ---------------------------------------------------------------------------
  // The session log
  // ---------------------------------------------------------------------------

  /** A fixed-capacity array of sessions of which the first `count` are stored. */
  class StepTracker {
    const sessions: array<WalkSession>
    var count: int

    ghost predicate Valid()
      reads this, sessions
    {
      sessions.Length == MaxSessions &&
      0 <= count <= MaxSessions &&
      forall i :: 0 <= i < count ==> Accepted(sessions[i])
    }

    /** The stored sessions, oldest first. */
    ghost function Sessions(): (s: seq<WalkSession>)
      reads this, sessions
      requires Valid()
      ensures |s| <= MaxSessions && AllAccepted(s)
    {
      sessions[..count]
    }

    constructor ()
      ensures Valid() && fresh(sessions)
      ensures Sessions() == []
      ensures forall i :: 0 <= i < sessions.Length ==> sessions[i] == DefaultSession
    {
      sessions := new WalkSession[MaxSessions](_ => DefaultSession);
      count := 0;
    }

    /** Appends `s` unless the log is full or `s` has non-positive steps or
        minutes; a rejected call changes nothing. */
    method AddSession(s: WalkSession) returns (ok: bool)
      requires Valid()
      modifies this`count, sessions
      ensures Valid()
      ensures ok <==> old(count) < MaxSessions && Accepted(s)
      ensures count == if ok then old(count) + 1 else old(count)
      ensures Sessions() == if ok then old(Sessions()) + [s] else old(Sessions())
      ensures ok ==> sessions[old(count)] == s
      ensures forall i :: 0 <= i < sessions.Length && (!ok || i != old(count)) ==> sessions[i] == old(sessions[i])
    {
      if count >= MaxSessions || s.steps <= 0 || s.minutes <= 0.0 {
        return false;
      }
      sessions[count] := s;
      count := count + 1;
      ok := true;
    }

    function GetSessionCount(): (n: int)
      reads this, sessions
      requires Valid()
      ensures n == |Sessions()|
      ensures 0 <= n <= MaxSessions
    {
      count
    }

    method GetTotalSteps() returns (total: int)
      requires Valid()
      ensures total == SumSteps(Sessions())
      ensures total >= count
    {
      total := 0;
      for i := 0 to count
        invariant total == SumSteps(sessions[..i])
      {
        assert sessions[..i + 1][..i] == sessions[..i];
        total := total + sessions[i].steps;
      }
      assert sessions[..count] == Sessions();
      SumStepsAtLeastLength(Sessions());
    }

    /** Divides each stored session's steps by its minutes directly; the
        invariant keeps every divisor positive. */
    method GetAverageStepsPerMinute() returns (avg: real)
      requires Valid()
      ensures avg == MeanRate(Sessions())
      ensures avg == 0.0 <==> count == 0
    {
      if count == 0 {
        return 0.0;
      }
      var total := 0.0;
      for i := 0 to count
        invariant total == Sum(Rates(sessions[..i]))
      {
        assert Rates(sessions[..i + 1])[..i] == Rates(sessions[..i]);
        assert StepsPerMinute(sessions[i]) == sessions[i].steps as real / sessions[i].minutes;
        total := total + sessions[i].steps as real / sessions[i].minutes;
      }
      assert sessions[..count] == Sessions();
      avg := total / count as real;
      MeanRateZeroIffEmpty(Sessions());
    }
  }

  // ---------------------------------------------------------------------------
  // Activities and their metrics
  // ---------------------------------------------------------------------------

  /** A step count with a guarded rate over an integer number of minutes. */
  datatype Metrics = Metrics(steps: int)
  {
    function GetSteps(): int
    {
      steps
    }

    function SetSteps(s: int): (m: Metrics)
      ensures m.GetSteps() == s
    {
      Metrics(s)
    }

    /** Steps per minute over `minutes`; 0 when `minutes` is not positive. */
    function StepsPerMinute(minutes: int): (r: real)
      ensures minutes <= 0 ==> r == 0.0
      ensures minutes > 0 ==> r * (minutes as real) == steps as real
    {
      if minutes <= 0 then 0.0 else steps as real / minutes as real
    }
  }

  const DefaultMetrics := Metrics(0)

  /** The base activity and its two kinds; a walk and a run carry metrics,
      a run also whether it was on a treadmill. */
  datatype Activity =
    | Plain(name: string, duration: int, style: CharacterStyle)
    | Walk(name: string, duration: int, style: CharacterStyle, metrics: Metrics)
    | Run(name: string, duration: int, style: CharacterStyle, metrics: Metrics, treadmill: bool)
  {
    function GetName(): string
    {
      name
    }

    function GetDuration(): int
    {
      duration
    }

    function GetStyle(): CharacterStyle
    {
      style
    }
  }

  const DefaultActivity := Plain("", 0, Vampire)
  const DefaultWalk := Walk("", 0, Vampire, DefaultMetrics)
  const DefaultRun := Run("", 0, Vampire, DefaultMetrics, false)

  /** Each kind of activity gives back the name, duration and style it was
      built with; the default-built ones hold an empty name, no minutes, no
      steps, the first style and no treadmill. */
  lemma GettersReturnStoredFields(n: string, d: int, c: CharacterStyle, steps: int, t: bool)
    ensures var a := Plain(n, d, c); a.GetName() == n && a.GetDuration() == d && a.GetStyle() == c
    ensures var a := Walk(n, d, c, Metrics(steps));
      a.GetName() == n && a.GetDuration() == d && a.GetStyle() == c && a.metrics.GetSteps() == steps
    ensures var a := Run(n, d, c, Metrics(steps), t);
      a.GetName() == n && a.GetDuration() == d && a.GetStyle() == c && a.metrics.GetSteps() == steps && a.treadmill == t
    ensures DefaultMetrics.GetSteps() == 0
    ensures DefaultActivity.Plain? && DefaultActivity.GetName() == "" && DefaultActivity.GetDuration() == 0
      && DefaultActivity.GetStyle() == Vampire
    ensures DefaultWalk.Walk? && DefaultWalk.GetName() == "" && DefaultWalk.GetDuration() == 0
      && DefaultWalk.GetStyle() == Vampire && DefaultWalk.metrics.GetSteps() == 0
    ensures DefaultRun.Run? && DefaultRun.GetName() == "" && DefaultRun.GetDuration() == 0
      && DefaultRun.GetStyle() == Vampire && DefaultRun.metrics.GetSteps() == 0 && !DefaultRun.treadmill
  {
  }

  /** Where the minutes of a session are a whole number, the session rate and
      the metrics rate agree. */
  lemma SessionRateAgreesWithMetrics(s: WalkSession, minutes: int)
    requires s.minutes == minutes as real
    ensures StepsPerMinute(s) == Metrics(s.steps).StepsPerMinute(minutes)
  {
  }

  // ---------------------------------------------------------------------------
  // Worked cases
  // ---------------------------------------------------------------------------

  /** Two walks of 1000 and 2000 steps total 3000 steps. */
  method TotalStepsExample() returns (total: int)
    ensures total == 3000
  {
    var tracker := new StepTracker();
    var a := WalkSession(1000, 20.0, "", Vampire);
    var b := WalkSession(2000, 40.0, "", Hunter);
    var okA := tracker.AddSession(a);
    assert tracker.Sessions() == [a];
    var okB := tracker.AddSession(b);
    assert tracker.Sessions() == [a, b];
    total := tracker.GetTotalSteps();
    SumStepsOfPair(a, b);
  }

  /** Walks of 600 steps in 30 minutes and 1200 in 60 average 20 per minute. */
  method AverageExample() returns (avg: real)
    ensures avg == 20.0
  {
    var tracker := new StepTracker();
    var a := WalkSession(600, 30.0, "", Vampire);
    var b := WalkSession(1200, 60.0, "", Wizard);
    var okA := tracker.AddSession(a);
    var okB := tracker.AddSession(b);
    avg := tracker.GetAverageStepsPerMinute();
    assert tracker.Sessions() == [a, b];
    MeanRateBounds([a, b], 20.0, 20.0);
  }

  /** A session of zero minutes is rejected and leaves the log empty, and
      its rate is 0. */
  method ZeroMinutesExample() returns (ok: bool, n: int, rate: real)
    ensures !ok && n == 0 && rate == 0.0
  {
    var tracker := new StepTracker();
    var s := WalkSession(100, 0.0, "", Hunter);
    ok := tracker.AddSession(s);
    n := tracker.GetSessionCount();
    rate := StepsPerMinute(s);
  }

  /** Five valid sessions are accepted; the sixth finds the log full. */
  method CapacityExample() returns (accepted: seq<bool>, n: int)
    ensures accepted == [true, true, true, true, true, false]
    ensures n == MaxSessions
  {
    var tracker := new StepTracker();
    var s := WalkSession(300, 30.0, "", Vampire);
    var ok1 := tracker.AddSession(s);
    var ok2 := tracker.AddSession(s);
    var ok3 := tracker.AddSession(s);
    var ok4 := tracker.AddSession(s);
    var ok5 := tracker.AddSession(s);
    var ok6 := tracker.AddSession(s);
    accepted := [ok1, ok2, ok3, ok4, ok5, ok6];
    n := tracker.GetSessionCount();
  }

  /** The metrics rate of 300 steps over 30 minutes is 10. */
  lemma MetricsRateExample()
    ensures Metrics(300).StepsPerMinute(30) == 10.0
    ensures Walk("Walk", 20, Hunter, Metrics(2000)).GetDuration() == 20
  {
  }
}
