/** The HR activity feed (ActivityContext.js): a newest-first log of at most five
    entries, each carrying a relative-time label ("Just now", "5 mins ago", ...)
    that a once-a-minute tick recomputes. Clock readings are parameters, in
    milliseconds since the epoch; localStorage is left out. */
module ActivityContext {
  import opened Common

  const MinuteMs: int := 60000
  const HourMs: int := 3600000
  const DayMs: int := 86400000

  /** The four shapes getRelativeTime can answer with. */
  datatype RelativeTime = JustNow | MinutesAgo(n: nat) | HoursAgo(n: nat) | DaysAgo(n: nat)

  /** getRelativeTime on the elapsed milliseconds `diff`: minutes, hours and days
      are floor divisions, tested in that order. A negative `diff` (a timestamp
      in the future) reads as "Just now". */
  function Bucket(diff: int): (r: RelativeTime)
    ensures r.JustNow? <==> diff < MinuteMs
    ensures r.MinutesAgo? <==> MinuteMs <= diff < HourMs
    ensures r.HoursAgo? <==> HourMs <= diff < DayMs
    ensures r.DaysAgo? <==> DayMs <= diff
    ensures r.MinutesAgo? ==> 1 <= r.n < 60 && r.n * MinuteMs <= diff < (r.n + 1) * MinuteMs
    ensures r.HoursAgo? ==> 1 <= r.n < 24 && r.n * HourMs <= diff < (r.n + 1) * HourMs
    ensures r.DaysAgo? ==> 1 <= r.n && r.n * DayMs <= diff < (r.n + 1) * DayMs
  {
    var minutes := diff / MinuteMs;
    var hours := diff / HourMs;
    var days := diff / DayMs;
    if minutes < 1 then JustNow
    else if minutes < 60 then MinutesAgo(minutes)
    else if hours < 24 then HoursAgo(hours)
    else DaysAgo(days)
  }

  /** The label shown for a bucket. */
  function Label(t: RelativeTime): string
  {
    match t
    case JustNow => "Just now"
    case MinutesAgo(n) => NatToString(n) + " mins ago"
    case HoursAgo(n) => NatToString(n) + " hours ago"
    case DaysAgo(n) => NatToString(n) + " days ago"
  }

  /** getRelativeTime(timestamp) read at clock `now`. */
  function RelativeLabel(now: int, timestamp: int): (r: string)
    ensures now - timestamp < MinuteMs ==> r == "Just now"
    ensures now - timestamp >= MinuteMs ==> |r| > 0 && IsDigit(r[0])
    ensures now - timestamp >= MinuteMs ==>
      var d := NatToString(Bucket(now - timestamp).n); |d| <= |r| && r[..|d|] == d
  {
    var t := Bucket(now - timestamp);
    assert !t.JustNow? ==> Label(t)[0] == NatToString(t.n)[0];
    Label(t)
  }

  lemma {:induction false} NatToStringInjective(m: nat, n: nat)
    requires NatToString(m) == NatToString(n)
    ensures m == n
  {
    NatToStringRoundTrip(m);
    NatToStringRoundTrip(n);
  }

  /** A run of digits followed by text starting with a space cannot be a proper
      prefix of another run of digits. */
  lemma DigitsThenSpace(s: string, a: string, t: string, b: string)
    requires forall i :: 0 <= i < |s| ==> IsDigit(s[i])
    requires forall i :: 0 <= i < |t| ==> IsDigit(t[i])
    requires |a| >= 1 && a[0] == ' ' && s + a == t + b
    ensures |s| >= |t|
  {
    assert (s + a)[|s|] == ' ';
    assert (t + b)[|s|] == ' ';
  }

  /** Two numbers followed by suffixes that start with a space never give the
      same text unless the numbers and the suffixes agree. */
  lemma {:induction false} NumberThenSuffix(m: nat, a: string, n: nat, b: string)
    requires |a| >= 1 && |b| >= 1 && a[0] == ' ' && b[0] == ' '
    requires NatToString(m) + a == NatToString(n) + b
    ensures m == n && a == b
  {
    var s, t := NatToString(m), NatToString(n);
    DigitsThenSpace(s, a, t, b);
    DigitsThenSpace(t, b, s, a);
    assert s == (s + a)[..|s|];
    assert t == (t + b)[..|t|];
    NatToStringInjective(m, n);
    assert a == (s + a)[|s|..];
  }

  /** The label names its bucket: different buckets never read alike. */
  lemma LabelInjective(x: RelativeTime, y: RelativeTime)
    requires Label(x) == Label(y)
    ensures x == y
  {
    if !x.JustNow? && !y.JustNow? {
      var sx := match x case MinutesAgo(_) => " mins ago" case HoursAgo(_) => " hours ago" case DaysAgo(_) => " days ago";
      var sy := match y case MinutesAgo(_) => " mins ago" case HoursAgo(_) => " hours ago" case DaysAgo(_) => " days ago";
      NumberThenSuffix(x.n, sx, y.n, sy);
    }
  }

  /** One entry of the feed. */
  datatype Activity = Activity(id: int, title: string, timestamp: int, time: string, kind: string)

  /** The entry addActivity builds at clock `now`: the clock doubles as its id,
      and its label is computed from its own timestamp, so it is "Just now". */
  function NewActivity(title: string, kind: string, now: int): (r: Activity)
    ensures r.title == title && r.kind == kind && r.id == now && r.timestamp == now
    ensures r.time == "Just now"
  {
    Activity(now, title, now, RelativeLabel(now, now), kind)
  }

  /** The first five entries of `s` (all of them when there are fewer). */
  function Latest5<T>(s: seq<T>): (r: seq<T>)
    ensures |r| == (if |s| < 5 then |s| else 5)
    ensures r == s[..|r|]
  {
    s[..if |s| < 5 then |s| else 5]
  }

  /** `[x, ...prev.slice(0, 4)]`: the new entry in front of at most four older ones. */
  function KeepLatest<T>(prev: seq<T>, x: T): (r: seq<T>)
    ensures r == Latest5([x] + prev)
    ensures |r| <= 5 && r[0] == x
  {
    var keep := prev[..if |prev| < 4 then |prev| else 4];
    assert [x] + keep == ([x] + prev)[..1 + |keep|];
    [x] + keep
  }

  function Reversed<T>(s: seq<T>): (r: seq<T>)
    ensures |r| == |s|
    ensures forall i :: 0 <= i < |s| ==> r[i] == s[|s| - 1 - i]
  {
    if s == [] then [] else Reversed(s[1..]) + [s[0]]
  }

  /** Adding `xs` one after another, xs[0] first. */
  function AddAll<T>(prev: seq<T>, xs: seq<T>): seq<T>
    decreases |xs|
  {
    if xs == [] then prev else AddAll(KeepLatest(prev, xs[0]), xs[1..])
  }

  /** However many activities are added, the feed holds the five most recent ones,
      newest first, falling back on the older saved entries while fewer than five
      have been added. */
  lemma {:induction false} AddAllKeepsNewest<T>(prev: seq<T>, xs: seq<T>)
    requires xs != []
    ensures AddAll(prev, xs) == Latest5(Reversed(xs) + prev)
    decreases |xs|
  {
    var p := KeepLatest(prev, xs[0]);
    if xs[1..] == [] {
      assert Reversed(xs) == [xs[0]];
    } else {
      AddAllKeepsNewest(p, xs[1..]);
      assert Reversed(xs) == Reversed(xs[1..]) + [xs[0]];
      Latest5Concat(Reversed(xs[1..]), [xs[0]] + prev);
      Latest5Concat(Reversed(xs[1..]), p);
      assert Reversed(xs[1..]) + ([xs[0]] + prev) == Reversed(xs) + prev;
    }
  }

  /** A batch of one or two activities, spelled out. */
  lemma AddAllShort<T>(prev: seq<T>, a: T, b: T)
    ensures AddAll(prev, [a]) == KeepLatest(prev, a)
    ensures AddAll(prev, [a, b]) == KeepLatest(KeepLatest(prev, a), b)
  {
    assert [a][1..] == [];
    assert [a, b][1..] == [b];
    var p1 := KeepLatest(prev, a);
    assert AddAll(prev, [a, b]) == AddAll(p1, [b]);
    assert AddAll(p1, [b]) == AddAll(KeepLatest(p1, b), [b][1..]);
    assert [b][1..] == [];
  }

  /** Adding two batches one after the other is adding them as one batch. */
  lemma {:induction false} AddAllConcat<T>(prev: seq<T>, xs: seq<T>, ys: seq<T>)
    ensures AddAll(prev, xs + ys) == AddAll(AddAll(prev, xs), ys)
    decreases |xs|
  {
    if xs == [] {
      assert xs + ys == ys;
    } else {
      assert (xs + ys)[1..] == xs[1..] + ys;
      AddAllConcat(KeepLatest(prev, xs[0]), xs[1..], ys);
    }
  }

  /** Keeping only the first five of a tail does not change the first five of the whole. */
  lemma Latest5Concat<T>(a: seq<T>, b: seq<T>)
    ensures Latest5(a + Latest5(b)) == Latest5(a + b)
  {
    var lb := Latest5(b);
    var n := if |a + b| < 5 then |a + b| else 5;
    assert |a + lb| >= n;
    forall i | 0 <= i < n
      ensures (a + lb)[i] == (a + b)[i]
    {
      if i >= |a| {
        assert (a + lb)[i] == lb[i - |a|];
      }
    }
  }

  /** The once-a-minute refresh: every entry keeps its id, title, timestamp, kind
      and position, and only its label is recomputed for clock `now`. */
  function Refreshed(acts: seq<Activity>, now: int): (r: seq<Activity>)
    ensures |r| == |acts|
    ensures forall i :: 0 <= i < |acts| ==>
      r[i].id == acts[i].id && r[i].title == acts[i].title && r[i].timestamp == acts[i].timestamp
      && r[i].kind == acts[i].kind && r[i].time == RelativeLabel(now, acts[i].timestamp)
  {
    seq(|acts|, i requires 0 <= i < |acts| => acts[i].(time := RelativeLabel(now, acts[i].timestamp)))
  }

  /** What localStorage held under 'hrActivities' when the provider started. */
  datatype SavedActivities = NothingSaved | Unparsable | Saved(items: seq<Activity>)

  /** The feed as held by ActivityProvider. */
  class ActivityLog {
    var activities: seq<Activity>

    /** The initial state: the saved list when it parses, otherwise empty. */
    constructor (saved: SavedActivities)
      ensures activities == (if saved.Saved? then saved.items else [])
    {
      match saved
      case Saved(items) => activities := items;
      case _ => activities := [];
    }

    /** addActivity(title, type) at clock `now`. */
    method AddActivity(title: string, kind: string, now: int)
      modifies this
      ensures activities == KeepLatest(old(activities), NewActivity(title, kind, now))
      ensures |activities| <= 5 && activities[0].title == title
    {
      var entry := Activity(now, title, now, RelativeLabel(now, now), kind);
      var keep := if |activities| < 4 then |activities| else 4;
      activities := [entry] + activities[..keep];
    }

    /** One tick of the interval timer, at clock `now`. */
    method Tick(now: int)
      modifies this
      ensures activities == Refreshed(old(activities), now)
    {
      var updated: seq<Activity> := [];
      var i := 0;
      while i < |activities|
        invariant 0 <= i <= |activities|
        invariant updated == Refreshed(activities[..i], now)
      {
        var a := activities[i];
        updated := updated + [a.(time := RelativeLabel(now, a.timestamp))];
        i := i + 1;
        assert activities[..i] == activities[..i - 1] + [a];
      }
      assert activities[..i] == activities;
      activities := updated;
    }
  }
}
