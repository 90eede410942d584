/** The reference definition of one generation run: the sequential loop over
    the selected angles with the daily-quota check before each attempt, the
    fail-fast stop on the first remote failure and the cooldown countdown
    between consecutive calls. `App.Coordinator.HandleGenerateClick` is proved
    to do what `RunFrom` says. */
module Generation {
  import opened Types
  import Usage

  /** Ten seconds between requests. */
  const ApiDelayMs: nat := 10000
  /** The countdown starts here and ticks once per second down to 1. */
  const CooldownSeconds: nat := ApiDelayMs / 1000

  /** What a run does that takes time: one remote call for an angle, or one
      one-second tick of the cooldown showing `seconds` left. */
  datatype Event = Called(angle: CameraAngle) | Waited(seconds: nat)

  /** The ticks `n, n - 1, ..., 1`. */
  function Countdown(n: nat): (r: seq<Event>)
    ensures |r| == n
    ensures forall k :: 0 <= k < n ==> r[k] == Waited(n - k)
  {
    seq(n, k requires 0 <= k < n => Waited(n - k))
  }

  /** The countdown is its first tick followed by the countdown from one less. */
  lemma CountdownStep(n: nat)
    requires n > 0
    ensures Countdown(n) == [Waited(n)] + Countdown(n - 1)
  {
  }

  /** The calendar days the replies were observed on, one per reply. */
  function Days(replies: seq<Reply>): (r: seq<Date>)
    ensures |r| == |replies| && forall k :: 0 <= k < |replies| ==> r[k] == replies[k].today
  {
    seq(|replies|, k requires 0 <= k < |replies| => replies[k].today)
  }

  /** The result id `${angle.name}-${Date.now()}`. */
  function ResultId(angleName: JsString, now: JsString): JsString {
    angleName + Literal("-") + now
  }

  /** The gallery record appended after a successful call for `angle`. */
  function NewImage(angle: CameraAngle, reply: Reply): (img: GeneratedImage)
    requires reply.result.Succeeded?
    ensures img.angle == angle && img.src == DataUrl(reply.result.payload)
    ensures |img.id| == |angle.name| + 1 + |reply.now| && img.id[..|angle.name|] == angle.name
    ensures img.id[|angle.name|] == Unit('-') && img.id[|angle.name| + 1..] == reply.now
    ensures !img.isUpscaling && !img.isRemovingBackground && img.originalSrc.None?
  {
    var id := ResultId(angle.name, reply.now);
    assert id[..|angle.name|] == angle.name && id[|angle.name| + 1..] == reply.now;
    GeneratedImage(id, DataUrl(reply.result.payload), angle, false, false, None)
  }

  /** What a run leaves: the appended results, the calls and ticks in order,
      and the error it ended with (`None` when every angle was attempted). */
  datatype Run = Run(results: seq<GeneratedImage>, trace: seq<Event>, error: Option<AppError>)

  /** The run from position `i` of `angles` on, when the count was `used` at
      the start and `i` calls have succeeded so far. The `i`-th call is
      answered by `replies[i]`. */
  function RunFrom(angles: seq<CameraAngle>, i: nat, used: int, replies: seq<Reply>): (r: Run)
    requires i <= |angles| <= |replies|
    ensures i + |r.results| <= |angles|
    decreases |angles| - i
  {
    if i == |angles| then Run([], [], None)
    else if used + i >= Usage.DailyLimit then Run([], [], Some(DailyLimitReached))
    else
      match replies[i].result
      case Failed => Run([], [Called(angles[i])], Some(GenerationFailed(angles[i].name)))
      case Succeeded(_) =>
        var pause := if i < |angles| - 1 then Countdown(CooldownSeconds) else [];
        var rest := RunFrom(angles, i + 1, used, replies);
        Run([NewImage(angles[i], replies[i])] + rest.results, [Called(angles[i])] + pause + rest.trace, rest.error)
  }

  /** The invariant of a loop that carries out the run `full` from 0: with
      `done` the results and `t` the events so far, what is left is the run
      from `i`. */
  predicate Continues(full: Run, angles: seq<CameraAngle>, i: nat, used: int, replies: seq<Reply>,
                      done: seq<GeneratedImage>, t: seq<Event>)
    requires i <= |angles| <= |replies|
  {
    var rest := RunFrom(angles, i, used, replies);
    full.results == done + rest.results && full.trace == t + rest.trace && full.error == rest.error
  }

  /** The loop starts with nothing done. */
  lemma ContinuesFromStart(angles: seq<CameraAngle>, used: int, replies: seq<Reply>)
    requires |angles| <= |replies|
    ensures Continues(RunFrom(angles, 0, used, replies), angles, 0, used, replies, [], [])
  {
    var r := RunFrom(angles, 0, used, replies);
    assert [] + r.results == r.results && [] + r.trace == r.trace;
  }

  /** A successful attempt at `i` moves its result and its call and pause
      from the run still to come onto what has been done so far. */
  lemma Advance(full: Run, angles: seq<CameraAngle>, i: nat, used: int, replies: seq<Reply>,
                done: seq<GeneratedImage>, t: seq<Event>)
    requires i < |angles| <= |replies|
    requires used + i < Usage.DailyLimit && replies[i].result.Succeeded?
    requires Continues(full, angles, i, used, replies, done, t)
    ensures var pause := if i < |angles| - 1 then Countdown(CooldownSeconds) else [];
      Continues(full, angles, i + 1, used, replies, done + [NewImage(angles[i], replies[i])],
                t + ([Called(angles[i])] + pause))
  {
    var pause := if i < |angles| - 1 then Countdown(CooldownSeconds) else [];
    var rest := RunFrom(angles, i + 1, used, replies);
    assert done + ([NewImage(angles[i], replies[i])] + rest.results) == (done + [NewImage(angles[i], replies[i])]) + rest.results;
    assert t + ([Called(angles[i])] + pause + rest.trace) == (t + ([Called(angles[i])] + pause)) + rest.trace;
  }

  /** At the quota the loop stops with what it has. */
  lemma ContinuesAtQuota(full: Run, angles: seq<CameraAngle>, i: nat, used: int, replies: seq<Reply>,
                         done: seq<GeneratedImage>, t: seq<Event>)
    requires i < |angles| <= |replies| && used + i >= Usage.DailyLimit
    requires Continues(full, angles, i, used, replies, done, t)
    ensures full == Run(done, t, Some(DailyLimitReached))
  {
    assert done + [] == done && t + [] == t;
  }

  /** At a failing call the loop stops after issuing it. */
  lemma ContinuesAtFailure(full: Run, angles: seq<CameraAngle>, i: nat, used: int, replies: seq<Reply>,
                           done: seq<GeneratedImage>, t: seq<Event>)
    requires i < |angles| <= |replies| && used + i < Usage.DailyLimit && replies[i].result.Failed?
    requires Continues(full, angles, i, used, replies, done, t)
    ensures full == Run(done, t + [Called(angles[i])], Some(GenerationFailed(angles[i].name)))
  {
    assert done + [] == done;
  }

  /** Past the last angle the loop has done the whole run. */
  lemma ContinuesAtEnd(full: Run, angles: seq<CameraAngle>, used: int, replies: seq<Reply>,
                       done: seq<GeneratedImage>, t: seq<Event>)
    requires |angles| <= |replies|
    requires Continues(full, angles, |angles|, used, replies, done, t)
    ensures full == Run(done, t, None)
  {
    assert done + [] == done && t + [] == t;
  }

  /** The angles of the calls in a trace, in order. */
  function Calls(trace: seq<Event>): seq<CameraAngle> {
    if trace == [] then [] else Head(trace[0]) + Calls(trace[1..])
  }

  /** The call of one event, if it is one. */
  function Head(e: Event): seq<CameraAngle> {
    if e.Called? then [e.angle] else []
  }

  lemma {:induction false} CallsAppend(a: seq<Event>, b: seq<Event>)
    ensures Calls(a + b) == Calls(a) + Calls(b)
    decreases |a|
  {
    if a == [] {
      assert a + b == b;
    } else {
      assert (a + b)[0] == a[0] && (a + b)[1..] == a[1..] + b;
      CallsAppend(a[1..], b);
      assert Calls(a + b) == Head(a[0]) + Calls(a[1..] + b);
    }
  }

  /** A stretch of ticks issues no call. */
  lemma {:induction false} CallsOfTicks(t: seq<Event>)
    requires forall k :: 0 <= k < |t| ==> t[k].Waited?
    ensures Calls(t) == []
    decreases |t|
  {
    if t != [] {
      CallsOfTicks(t[1..]);
    }
  }

  /** Position `stop` is where the run from `i` ended: the first position at
      which the quota was reached or a call failed, or the end of the list. */
  function Stop(angles: seq<CameraAngle>, i: nat, used: int, replies: seq<Reply>): nat
    requires i <= |angles| <= |replies|
  {
    i + |RunFrom(angles, i, used, replies).results|
  }

  /** `img` is the record a successful call for `angle` answered by `reply`
      appends, the call having been attempted with `countBefore` below the limit. */
  predicate Produced(img: GeneratedImage, angle: CameraAngle, reply: Reply, countBefore: int) {
    countBefore < Usage.DailyLimit && reply.result.Succeeded? && img == NewImage(angle, reply)
  }

  /** The results are the successes of the calls at positions `i, i + 1, ...`
      in the static order, each attempted below the quota. */
  lemma {:induction false} RunResults(angles: seq<CameraAngle>, i: nat, used: int, replies: seq<Reply>)
    requires i <= |angles| <= |replies|
    ensures var r := RunFrom(angles, i, used, replies);
      && i + |r.results| <= |angles|
      && forall j :: 0 <= j < |r.results| ==> Produced(r.results[j], angles[i + j], replies[i + j], used + i + j)
    decreases |angles| - i
  {
    if i < |angles| && used + i < Usage.DailyLimit && replies[i].result.Succeeded? {
      RunResults(angles, i + 1, used, replies);
      var r, rest := RunFrom(angles, i, used, replies), RunFrom(angles, i + 1, used, replies);
      assert r.results == [NewImage(angles[i], replies[i])] + rest.results;
      forall j | 0 <= j < |r.results|
        ensures Produced(r.results[j], angles[i + j], replies[i + j], used + i + j)
      {
        if j > 0 {
          assert r.results[j] == rest.results[j - 1];
          assert i + 1 + (j - 1) == i + j;
        }
      }
    }
  }

  /** The error says why the run from `i` stopped at `stop`: nothing left to
      attempt, the quota reached there, or the call there failed. */
  lemma {:induction false} RunStops(angles: seq<CameraAngle>, i: nat, used: int, replies: seq<Reply>)
    requires i <= |angles| <= |replies|
    ensures var r, stop := RunFrom(angles, i, used, replies), Stop(angles, i, used, replies);
      && stop <= |angles|
      && (r.error == None <==> stop == |angles|)
      && (r.error == Some(DailyLimitReached) <==> stop < |angles| && used + stop >= Usage.DailyLimit)
      && (r.error.Some? && r.error != Some(DailyLimitReached) <==>
            stop < |angles| && used + stop < Usage.DailyLimit && replies[stop].result.Failed?)
      && (r.error.Some? && r.error != Some(DailyLimitReached) ==>
            r.error == Some(GenerationFailed(angles[stop].name)))
    decreases |angles| - i
  {
    if i < |angles| && used + i < Usage.DailyLimit && replies[i].result.Succeeded? {
      RunStops(angles, i + 1, used, replies);
    }
  }

  /** The calls issued are exactly the angles from `i` up to where the run
      stopped, plus the failing one when a call failed. */
  lemma RunCalls(angles: seq<CameraAngle>, i: nat, used: int, replies: seq<Reply>)
    requires i <= |angles| <= |replies|
    ensures var r, stop := RunFrom(angles, i, used, replies), Stop(angles, i, used, replies);
      var end := if r.error.Some? && r.error.value.GenerationFailed? then stop + 1 else stop;
      i <= end <= |angles| && Calls(r.trace) == angles[i..end]
  {
    CallsUpTo(angles, i, used, replies);
    CallEndAtStop(angles, i, used, replies);
  }

  /** One past the last position the run from `i` issues a call for. */
  function CallEnd(angles: seq<CameraAngle>, i: nat, used: int, replies: seq<Reply>): (e: nat)
    requires i <= |angles| <= |replies|
    ensures i <= e <= |angles|
    decreases |angles| - i
  {
    if i == |angles| || used + i >= Usage.DailyLimit then i
    else if replies[i].result.Failed? then i + 1
    else CallEnd(angles, i + 1, used, replies)
  }

  lemma {:induction false} CallsUpTo(angles: seq<CameraAngle>, i: nat, used: int, replies: seq<Reply>)
    requires i <= |angles| <= |replies|
    ensures Calls(RunFrom(angles, i, used, replies).trace) == angles[i..CallEnd(angles, i, used, replies)]
    decreases |angles| - i
  {
    if i < |angles| && used + i < Usage.DailyLimit {
      if replies[i].result.Failed? {
        assert RunFrom(angles, i, used, replies).trace == [Called(angles[i])] + [];
      } else {
        CallsUpTo(angles, i + 1, used, replies);
        CallsOfSuccess(angles, i, used, replies);
        SliceCons(angles, i, CallEnd(angles, i + 1, used, replies));
      }
    }
  }

  lemma SliceCons<T>(s: seq<T>, i: nat, e: nat)
    requires i < e <= |s|
    ensures s[i..e] == [s[i]] + s[i + 1..e]
  {
  }

  /** `CallEnd` is where the run stopped, one further when a call failed there. */
  lemma {:induction false} CallEndAtStop(angles: seq<CameraAngle>, i: nat, used: int, replies: seq<Reply>)
    requires i <= |angles| <= |replies|
    ensures var r := RunFrom(angles, i, used, replies);
      CallEnd(angles, i, used, replies) ==
        if r.error.Some? && r.error.value.GenerationFailed? then Stop(angles, i, used, replies) + 1
        else Stop(angles, i, used, replies)
    decreases |angles| - i
  {
    if i < |angles| && used + i < Usage.DailyLimit && replies[i].result.Succeeded? {
      CallEndAtStop(angles, i + 1, used, replies);
    }
  }

  /** One successful attempt contributes its own call, and its cooldown none. */
  lemma CallsOfSuccess(angles: seq<CameraAngle>, i: nat, used: int, replies: seq<Reply>)
    requires i < |angles| <= |replies|
    requires used + i < Usage.DailyLimit && replies[i].result.Succeeded?
    ensures Calls(RunFrom(angles, i, used, replies).trace) == [angles[i]] + Calls(RunFrom(angles, i + 1, used, replies).trace)
  {
    var rest := RunFrom(angles, i + 1, used, replies);
    if i < |angles| - 1 {
      CallThenTicks(angles[i], Countdown(CooldownSeconds), rest.trace);
    } else {
      CallThenTicks(angles[i], [], rest.trace);
    }
  }

  /** A call, a stretch of ticks, then more: the call's angle comes first. */
  lemma CallThenTicks(a: CameraAngle, ticks: seq<Event>, more: seq<Event>)
    requires forall k :: 0 <= k < |ticks| ==> ticks[k].Waited?
    ensures Calls([Called(a)] + ticks + more) == [a] + Calls(more)
  {
    CallsOfTicks(ticks);
    CallsAppend([Called(a)] + ticks, more);
    CallsAppend([Called(a)], ticks);
    assert Calls([Called(a)]) == [a] + Calls([]);
  }

  /** All calls succeed and the quota suffices: every selected angle yields a
      result, in the static order, and the run ends without error. */
  lemma AllSucceed(angles: seq<CameraAngle>, used: int, replies: seq<Reply>)
    requires |angles| <= |replies|
    requires forall k :: 0 <= k < |angles| ==> replies[k].result.Succeeded?
    requires used + |angles| <= Usage.DailyLimit
    ensures var r := RunFrom(angles, 0, used, replies);
      && |r.results| == |angles|
      && (forall k :: 0 <= k < |angles| ==> r.results[k] == NewImage(angles[k], replies[k]))
      && r.error == None
      && Calls(r.trace) == angles
  {
    ResultsInOrder(angles, used, replies);
    RunStops(angles, 0, used, replies);
    RunCalls(angles, 0, used, replies);
  }

  /** Fail-fast: when call `k` fails, the results are the `k` earlier
      successes, nothing after call `k` is issued and the error names its angle. */
  lemma FailFast(angles: seq<CameraAngle>, used: int, replies: seq<Reply>, k: nat)
    requires k < |angles| <= |replies|
    requires forall j :: 0 <= j < k ==> replies[j].result.Succeeded?
    requires replies[k].result.Failed?
    requires used + k < Usage.DailyLimit
    ensures var r := RunFrom(angles, 0, used, replies);
      && |r.results| == k
      && (forall j :: 0 <= j < k ==> r.results[j] == NewImage(angles[j], replies[j]))
      && r.error == Some(GenerationFailed(angles[k].name))
      && Calls(r.trace) == angles[..k + 1]
  {
    StopsAtFailure(angles, 0, used, replies, k);
    RunCalls(angles, 0, used, replies);
    ResultsInOrder(angles, used, replies);
  }

  /** Result `j` of a run from the start is the record of the successful call `j`. */
  lemma ResultsInOrder(angles: seq<CameraAngle>, used: int, replies: seq<Reply>)
    requires |angles| <= |replies|
    ensures var r := RunFrom(angles, 0, used, replies);
      forall j :: 0 <= j < |r.results| ==>
        replies[j].result.Succeeded? && r.results[j] == NewImage(angles[j], replies[j])
  {
    var r := RunFrom(angles, 0, used, replies);
    RunResults(angles, 0, used, replies);
    forall j | 0 <= j < |r.results|
      ensures replies[j].result.Succeeded? && r.results[j] == NewImage(angles[j], replies[j])
    {
      assert Produced(r.results[j], angles[0 + j], replies[0 + j], used + 0 + j);
    }
  }

  /** From `i` on, the run stops at the first failing call `k` when the
      calls before it succeeded within the quota. */
  lemma {:induction false} StopsAtFailure(angles: seq<CameraAngle>, i: nat, used: int, replies: seq<Reply>, k: nat)
    requires i <= k < |angles| <= |replies|
    requires forall j :: i <= j < k ==> replies[j].result.Succeeded?
    requires replies[k].result.Failed?
    requires used + k < Usage.DailyLimit
    ensures Stop(angles, i, used, replies) == k
    ensures RunFrom(angles, i, used, replies).error == Some(GenerationFailed(angles[k].name))
    decreases k - i
  {
    if i < k {
      StopsAtFailure(angles, i + 1, used, replies, k);
    }
  }

  /** The quota bound: starting below the limit, a run never takes the count
      past it. */
  lemma QuotaBound(angles: seq<CameraAngle>, used: int, replies: seq<Reply>)
    requires |angles| <= |replies|
    requires used < Usage.DailyLimit
    ensures used + |RunFrom(angles, 0, used, replies).results| <= Usage.DailyLimit
  {
    RunResults(angles, 0, used, replies);
    var stop := Stop(angles, 0, used, replies);
    var r := RunFrom(angles, 0, used, replies);
    if stop > 0 {
      assert r.results[stop - 1] == r.results[stop - 1];
    }
  }

  /** With fewer calls left today than angles selected and no failure, the
      run stops exactly at the limit with the quota error. */
  lemma QuotaStopsRun(angles: seq<CameraAngle>, used: int, replies: seq<Reply>)
    requires |angles| <= |replies|
    requires forall k :: 0 <= k < |angles| ==> replies[k].result.Succeeded?
    requires used < Usage.DailyLimit < used + |angles|
    ensures var r := RunFrom(angles, 0, used, replies);
      used + |r.results| == Usage.DailyLimit && r.error == Some(DailyLimitReached)
  {
    RunResults(angles, 0, used, replies);
    RunStops(angles, 0, used, replies);
    QuotaBound(angles, used, replies);
  }

  /** A trace in which every call is followed either by the end of the run or
      by a full cooldown countdown. */
  predicate Paced(t: seq<Event>)
    decreases |t|
  {
    t == [] ||
    (t[0].Called? &&
     (|t| == 1 ||
      (|t| >= 1 + CooldownSeconds && t[1..1 + CooldownSeconds] == Countdown(CooldownSeconds) &&
       Paced(t[1 + CooldownSeconds..]))))
  }

  /** Every run is paced. */
  lemma {:induction false} RunPaced(angles: seq<CameraAngle>, i: nat, used: int, replies: seq<Reply>)
    requires i <= |angles| <= |replies|
    ensures Paced(RunFrom(angles, i, used, replies).trace)
    decreases |angles| - i
  {
    if i < |angles| && used + i < Usage.DailyLimit && replies[i].result.Succeeded? {
      RunPaced(angles, i + 1, used, replies);
      var t := RunFrom(angles, i, used, replies).trace;
      var rest := RunFrom(angles, i + 1, used, replies);
      if i < |angles| - 1 {
        assert t == [Called(angles[i])] + Countdown(CooldownSeconds) + rest.trace;
        assert t[1..1 + CooldownSeconds] == Countdown(CooldownSeconds);
        assert t[1 + CooldownSeconds..] == rest.trace;
      } else {
        assert rest.trace == [];
        assert t == [Called(angles[i])];
      }
    }
  }

  lemma SliceOfSuffix<T>(s: seq<T>, d: nat, a: nat, b: nat)
    requires d <= |s| && a <= b <= |s| - d
    ensures s[d..][a..b] == s[d + a..d + b]
  {
  }

  /** In a paced trace, no two calls are closer together than the cooldown:
      a call followed by a later call is immediately followed by the ticks
      `10, 9, ..., 1`. */
  lemma {:induction false} PacedSpacing(t: seq<Event>, j: nat, j': nat)
    requires Paced(t)
    requires j < j' < |t| && t[j].Called? && t[j'].Called?
    ensures j + CooldownSeconds < j' && t[j + 1..j + 1 + CooldownSeconds] == Countdown(CooldownSeconds)
    decreases |t|
  {
    var n := CooldownSeconds;
    assert |t| >= 1 + n && t[1..1 + n] == Countdown(n);
    if j != 0 {
      var u := t[1 + n..];
      assert u[j - 1 - n] == t[j] && u[j' - 1 - n] == t[j'];
      PacedSpacing(u, j - 1 - n, j' - 1 - n);
      SliceOfSuffix(t, 1 + n, j - n, j);
    }
  }
}
