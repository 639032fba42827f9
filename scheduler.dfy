/** Daily posting jobs (src/services/scheduler.py): "HH:MM" strings are
    parsed into a cron trigger, each job is named after the raw string, and
    `start` registers every configured time before the scheduler runs. The
    scheduler's job table and running state are fields. */
module Scheduler {
  import opened Wrappers
  import opened Text

  /** A daily trigger at the given hour and minute. */
  datatype Trigger = Cron(hour: int, minute: int)

  /** The one function the jobs run. */
  datatype Target = GenerateAndPostTweet

  datatype Job = Job(id: string, trigger: Trigger, target: Target)

  /** `BadTime`: the string does not split into two integers (a ValueError).
      `AlreadyRunning`, `NotRunning`: the scheduler refused to start or stop. */
  datatype ScheduleError = BadTime(timeStr: string) | AlreadyRunning | NotRunning

  const DefaultTimes: seq<string> := ["10:00", "15:00", "20:00"]

  /** `hour, minute = map(int, time_str.split(":"))`. */
  function ParseTime(timeStr: string): (r: Result<Trigger, ScheduleError>)
    ensures r.Err? ==> r.error == BadTime(timeStr)
  {
    var parts := Split(timeStr, ':');
    if |parts| != 2 then Err(BadTime(timeStr))
    else
      var h, m := ParseInt(parts[0]), ParseInt(parts[1]);
      if h.Some? && m.Some? then Ok(Cron(h.value, m.value)) else Err(BadTime(timeStr))
  }

  /** A time parses exactly when it is two integers around its only ':'. */
  lemma ParseTimeShape(timeStr: string)
    ensures var parts := Split(timeStr, ':');
      ParseTime(timeStr).Ok? <==> |parts| == 2 && ParseInt(parts[0]).Some? && ParseInt(parts[1]).Some?
    ensures ParseTime(timeStr).Ok? ==>
      var parts := Split(timeStr, ':');
      && timeStr == parts[0] + ":" + parts[1]
      && ':' !in parts[0] && ':' !in parts[1]
      && ParseInt(parts[0]) == Some(ParseTime(timeStr).value.hour)
      && ParseInt(parts[1]) == Some(ParseTime(timeStr).value.minute)
  {
    var parts := Split(timeStr, ':');
    SplitFacts(timeStr, ':');
    if |parts| == 2 {
      assert parts[1..] == [parts[1]];
      assert Join(parts, ":") == parts[0] + ":" + Join(parts[1..], ":");
    }
  }

  /** Two pieces without ':' around one ':' split back into those pieces. */
  lemma SplitClock(a: string, b: string)
    requires ':' !in a && ':' !in b
    ensures Split(a + ":" + b, ':') == [a, b]
  {
    assert Join([a, b], ":") == a + ":" + b by {
      assert [a, b][1..] == [b];
    }
    SplitJoin([a, b], ':');
  }

  /** Two integers around one ':' parse to that hour and minute. */
  lemma ParseClock(a: string, b: string)
    requires ':' !in a && ':' !in b && ParseInt(a).Some? && ParseInt(b).Some?
    ensures ParseTime(a + ":" + b) == Ok(Cron(ParseInt(a).value, ParseInt(b).value))
  {
    SplitClock(a, b);
  }

  /** The job id is built from the raw string, not from the parsed values. */
  function JobId(timeStr: string): (id: string)
    ensures |id| == |timeStr| + 6 && id[..6] == "tweet_" && id[6..] == timeStr
  {
    "tweet_" + timeStr
  }

  /** A clock time written as `str(h) + ":" + str(m)` parses back to `h`, `m`. */
  lemma ParseFormattedTime(h: int, m: int)
    ensures ParseTime(IntToString(h) + ":" + IntToString(m)) == Ok(Cron(h, m))
  {
    NoColonInNumber(h);
    NoColonInNumber(m);
    ParseIntRoundTrip(h);
    ParseIntRoundTrip(m);
    ParseClock(IntToString(h), IntToString(m));
  }

  lemma NoColonInNumber(n: int)
    ensures ':' !in IntToString(n)
  {
    var s := IntToString(n);
    if n < 0 {
      var ds := NatToDigits(-n);
      assert s == "-" + ds;
      assert forall i :: 1 <= i < |s| ==> s[i] == ds[i - 1];
      assert forall i :: 0 <= i < |s| ==> s[i] == '-' || IsDigit(s[i]);
    } else {
      assert forall i :: 0 <= i < |s| ==> IsDigit(s[i]);
    }
  }

  lemma NoColonInDigits(ds: string)
    requires AllDigits(ds)
    ensures ':' !in ds
  {
    assert forall i :: 0 <= i < |ds| ==> ds[i] != ':' by {
      forall i | 0 <= i < |ds| ensures ds[i] != ':' {
        assert IsDigit(ds[i]);
      }
    }
  }

  /** A leading zero does not change the value of a run of digits. */
  lemma {:induction false} LeadingZero(ds: string)
    requires AllDigits(ds)
    ensures AllDigits("0" + ds) && DigitsValue("0" + ds) == DigitsValue(ds)
  {
    var z := "0" + ds;
    assert forall i :: 1 <= i < |z| ==> z[i] == ds[i - 1];
    if ds != [] {
      assert z[..|z| - 1] == "0" + ds[..|ds| - 1];
      assert z[|z| - 1] == ds[|ds| - 1];
      LeadingZero(ds[..|ds| - 1]);
    } else {
      assert z[..0] == [];
    }
  }

  /** Two runs of digits around one ':' parse to their values. */
  lemma ParseDigitsClock(h: string, m: string)
    requires |h| >= 1 && AllDigits(h) && |m| >= 1 && AllDigits(m)
    ensures ParseTime(h + ":" + m) == Ok(Cron(DigitsValue(h), DigitsValue(m)))
  {
    NoColonInDigits(h);
    NoColonInDigits(m);
    ParseIntDigits(h);
    ParseIntDigits(m);
    ParseClock(h, m);
  }

  /** Two spellings of the same clock time, such as "10:00" and "10:0":
      the same trigger, but different job ids. */
  lemma SpellingMatters(h: string, m: string)
    requires |h| >= 1 && AllDigits(h) && |m| >= 1 && AllDigits(m)
    ensures ParseTime(h + ":" + ("0" + m)) == ParseTime(h + ":" + m)
    ensures JobId(h + ":" + ("0" + m)) != JobId(h + ":" + m)
  {
    LeadingZero(m);
    ParseDigitsClock(h, m);
    ParseDigitsClock(h, "0" + m);
    assert |JobId(h + ":" + ("0" + m))| != |JobId(h + ":" + m)|;
  }

  /** Two digits read as a two-digit number. */
  lemma TwoDigits(a: string)
    requires |a| == 2 && IsDigit(a[0]) && IsDigit(a[1])
    ensures ':' !in a
    ensures ParseInt(a) == Some(DigitValue(a[0]) * 10 + DigitValue(a[1]))
  {
    assert AllDigits(a);
    ParseIntDigits(a);
    assert a[..1] == [a[0]];
    assert DigitsValue(a[..1]) == DigitValue(a[0]) by {
      assert a[..1][..0] == [];
    }
  }

  /** A time written as two digits, ':', two digits. */
  lemma ParseTwoByTwo(a: string, b: string)
    requires |a| == 2 && IsDigit(a[0]) && IsDigit(a[1])
    requires |b| == 2 && IsDigit(b[0]) && IsDigit(b[1])
    ensures ParseTime(a + ":" + b).Ok?
    ensures ParseTime(a + ":" + b).value == Cron(DigitValue(a[0]) * 10 + DigitValue(a[1]),
                                                 DigitValue(b[0]) * 10 + DigitValue(b[1]))
  {
    TwoDigits(a);
    TwoDigits(b);
    ParseClock(a, b);
  }

  /** A time written "HH:MM" parses like the two-digit numbers around its ':'. */
  lemma ParseDefault(s: string, a: string, b: string, h: int)
    requires s == a + ":" + b && |a| == 2 && IsDigit(a[0]) && IsDigit(a[1]) && b == "00"
    requires h == DigitValue(a[0]) * 10 + DigitValue(a[1])
    ensures ParseTime(s).Ok? && ParseTime(s).value == Cron(h, 0)
  {
    ParseTwoByTwo(a, b);
  }

  /** The default times parse to 10:00, 15:00 and 20:00. */
  lemma DefaultTimeParses(k: nat)
    requires k < |DefaultTimes|
    ensures ParseTime(DefaultTimes[k]).Ok?
    ensures ParseTime(DefaultTimes[k]).value == Cron([10, 15, 20][k], 0)
  {
    if k == 0 {
      ParseDefault(DefaultTimes[0], "10", "00", 10);
    } else if k == 1 {
      ParseDefault(DefaultTimes[1], "15", "00", 15);
    } else {
      ParseDefault(DefaultTimes[2], "20", "00", 20);
    }
  }

  /** Reference definition of what the registration loop in `start` adds
      with a given parser: one job per time, in order, up to the first time
      that does not parse. */
  function JobsFor(times: seq<string>, parse: string -> Result<Trigger, ScheduleError>): (js: seq<Job>)
    ensures |js| <= |times|
  {
    if times == [] then []
    else
      match parse(times[0])
      case Err(_) => []
      case Ok(t) => [Job(JobId(times[0]), t, GenerateAndPostTweet)] + JobsFor(times[1..], parse)
  }

  /** The k-th job registered is the job for the k-th time. */
  lemma {:induction false} JobsForAt(times: seq<string>, parse: string -> Result<Trigger, ScheduleError>, k: nat)
    requires k < |JobsFor(times, parse)|
    ensures parse(times[k]).Ok?
    ensures JobsFor(times, parse)[k] == Job(JobId(times[k]), parse(times[k]).value, GenerateAndPostTweet)
    decreases k
  {
    if k > 0 {
      JobsForAt(times[1..], parse, k - 1);
      assert times[1..][k - 1] == times[k];
    }
  }

  /** Registration stops only at a time that does not parse. */
  lemma {:induction false} JobsForStop(times: seq<string>, parse: string -> Result<Trigger, ScheduleError>)
    ensures |JobsFor(times, parse)| < |times| ==> parse(times[|JobsFor(times, parse)|]).Err?
  {
    if times != [] && parse(times[0]).Ok? {
      JobsForStop(times[1..], parse);
      var rest := JobsFor(times[1..], parse);
      if |rest| < |times[1..]| {
        assert times[1..][|rest|] == times[|rest| + 1];
      }
    }
  }

  /** `JobsFor` over the times from position `i` on, walked by index as the
      registration loop walks them. */
  function JobsFrom(times: seq<string>, parse: string -> Result<Trigger, ScheduleError>, i: nat): seq<Job>
    requires i <= |times|
    decreases |times| - i
  {
    if i == |times| then []
    else
      match parse(times[i])
      case Err(_) => []
      case Ok(t) => [Job(JobId(times[i]), t, GenerateAndPostTweet)] + JobsFrom(times, parse, i + 1)
  }

  lemma {:induction false} JobsFromSlice(times: seq<string>, parse: string -> Result<Trigger, ScheduleError>, i: nat)
    requires i <= |times|
    ensures JobsFrom(times, parse, i) == JobsFor(times[i..], parse)
    decreases |times| - i
  {
    if i < |times| {
      var rest := times[i..];
      assert rest[0] == times[i] && rest[1..] == times[i + 1..];
      JobsFromSlice(times, parse, i + 1);
    }
  }

  /** The error that stops the registration: the first time that does not parse. */
  function FirstBadTime(times: seq<string>, parse: string -> Result<Trigger, ScheduleError>): (e: Option<ScheduleError>)
    ensures e.Some? ==> |JobsFor(times, parse)| < |times| && parse(times[|JobsFor(times, parse)|]).Err?
    ensures e.Some? && parse == ParseTime ==> e.value == BadTime(times[|JobsFor(times, parse)|])
    ensures e.None? <==> |JobsFor(times, parse)| == |times|
  {
    var n := |JobsFor(times, parse)|;
    JobsForStop(times, parse);
    if n < |times| then Some(parse(times[n]).error) else None
  }

  /** No error means every configured time parsed. */
  lemma FirstBadTimeNone(times: seq<string>, parse: string -> Result<Trigger, ScheduleError>)
    ensures FirstBadTime(times, parse).None? <==> forall k :: 0 <= k < |times| ==> parse(times[k]).Ok?
  {
    JobsForStop(times, parse);
    forall k | 0 <= k < |JobsFor(times, parse)| ensures parse(times[k]).Ok? {
      JobsForAt(times, parse, k);
    }
  }

  /** The default times give three distinct job ids. */
  lemma DefaultIdsDistinct()
    ensures forall i, j :: 0 <= i < j < |DefaultTimes| ==> JobId(DefaultTimes[i]) != JobId(DefaultTimes[j])
  {
    assert JobId(DefaultTimes[0])[6] == '1';
    assert JobId(DefaultTimes[1])[6] == '1' && JobId(DefaultTimes[1])[7] == '5';
    assert JobId(DefaultTimes[0])[7] == '0';
    assert JobId(DefaultTimes[2])[6] == '2';
  }

  /** The defaults register one daily job per time, in order, and start
      without error. */
  lemma DefaultRegistration()
    ensures FirstBadTime(DefaultTimes, ParseTime).None?
    ensures |JobsFor(DefaultTimes, ParseTime)| == |DefaultTimes|
    ensures forall k :: 0 <= k < |DefaultTimes| ==>
              JobsFor(DefaultTimes, ParseTime)[k] ==
                Job(JobId(DefaultTimes[k]), Cron([10, 15, 20][k], 0), GenerateAndPostTweet)
  {
    forall k | 0 <= k < |DefaultTimes| ensures ParseTime(DefaultTimes[k]).Ok? {
      DefaultTimeParses(k);
    }
    FirstBadTimeNone(DefaultTimes, ParseTime);
    forall k | 0 <= k < |DefaultTimes|
      ensures JobsFor(DefaultTimes, ParseTime)[k] ==
                Job(JobId(DefaultTimes[k]), Cron([10, 15, 20][k], 0), GenerateAndPostTweet)
    {
      DefaultTimeParses(k);
      JobsForAt(DefaultTimes, ParseTime, k);
    }
  }

  lemma AppendAssoc<T>(a: seq<T>, b: seq<T>, c: seq<T>)
    ensures (a + b) + c == a + (b + c)
  {
  }

  class TweetScheduler {
    /** The scheduler's job table, in registration order. */
    var jobs: seq<Job>
    var running: bool
    var scheduleTimes: seq<string>

    constructor ()
      ensures jobs == [] && !running && scheduleTimes == DefaultTimes
    {
      jobs := [];
      running := false;
      scheduleTimes := DefaultTimes;
    }

    /** `schedule_tweet`: a daily job at the parsed time, or the parse error
        with the table unchanged. */
    method ScheduleTweet(timeStr: string) returns (r: Result<Job, ScheduleError>)
      modifies this`jobs
      ensures ParseTime(timeStr).Err? ==> r == Err(BadTime(timeStr)) && jobs == old(jobs)
      ensures ParseTime(timeStr).Ok? ==>
                && r == Ok(Job(JobId(timeStr), ParseTime(timeStr).value, GenerateAndPostTweet))
                && jobs == old(jobs) + [r.value]
    {
      var trigger := ParseTime(timeStr);
      if trigger.Err? {
        return Err(trigger.error);
      }
      var job := Job("tweet_" + timeStr, trigger.value, GenerateAndPostTweet);
      jobs := jobs + [job];
      r := Ok(job);
    }

    /** `start`: registers every configured time in order, then starts the
        scheduler; the first failure is raised to the caller. */
    method Start() returns (r: Result<(), ScheduleError>)
      modifies this`jobs, this`running
      ensures jobs == old(jobs) + JobsFor(scheduleTimes, ParseTime)
      ensures FirstBadTime(scheduleTimes, ParseTime).Some? ==>
                r == Err(FirstBadTime(scheduleTimes, ParseTime).value) && running == old(running)
      ensures FirstBadTime(scheduleTimes, ParseTime).None? && old(running) ==>
                r == Err(AlreadyRunning) && running
      ensures FirstBadTime(scheduleTimes, ParseTime).None? && !old(running) ==>
                r == Ok(()) && running
    {
      ghost var added := JobsFor(scheduleTimes, ParseTime);
      JobsFromSlice(scheduleTimes, ParseTime, 0);
      assert scheduleTimes[0..] == scheduleTimes;
      var i := 0;
      while i < |scheduleTimes|
        invariant 0 <= i <= |scheduleTimes|
        invariant |jobs| == |old(jobs)| + i
        invariant jobs + JobsFrom(scheduleTimes, ParseTime, i) == old(jobs) + added
        invariant running == old(running)
      {
        ghost var prev := jobs;
        var job := ScheduleTweet(scheduleTimes[i]);
        if job.Err? {
          assert |added| == i;
          return Err(job.error);
        }
        assert JobsFrom(scheduleTimes, ParseTime, i) == [job.value] + JobsFrom(scheduleTimes, ParseTime, i + 1);
        AppendAssoc(prev, [job.value], JobsFrom(scheduleTimes, ParseTime, i + 1));
        i := i + 1;
      }
      if running {
        return Err(AlreadyRunning);
      }
      running := true;
      r := Ok(());
    }

    /** `stop`: shuts the scheduler down, or raises when it is not running. */
    method Stop() returns (r: Result<(), ScheduleError>)
      modifies this`running
      ensures old(running) ==> r == Ok(()) && !running
      ensures !old(running) ==> r == Err(NotRunning) && !running
    {
      if !running {
        return Err(NotRunning);
      }
      running := false;
      r := Ok(());
    }
  }
}
