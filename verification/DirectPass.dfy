/** The direct pass written out: a sum over channels, users and the records of their logs. */
module DirectPass {
  import opened TimeDetail
  import opened LogParser
  import opened LogRoundTrip
  import opened LogRequest
  import opened Search
  import opened Hits
  import opened Pipeline

  /** f(0) + ... + f(n - 1) */
  function Sum(n: nat, f: nat -> nat): nat {
    if n == 0 then 0 else Sum(n - 1, f) + f(n - 1)
  }

  /** What a record contributes is a matter of the channel, its time, its name and its message. */
  function RecordWeight(channel: string, r: Record, weight: Hit -> nat): nat {
    weight(Hit(channel, Entry(r.time, r.name, r.message)))
  }

  function RecordSum(channel: string, rs: seq<Record>, weight: Hit -> nat, k: nat): nat {
    if k < |rs| then RecordWeight(channel, rs[k], weight) else 0
  }

  function RecordSums(channel: string, rs: seq<Record>, weight: Hit -> nat): nat -> nat {
    (k: nat) => RecordSum(channel, rs, weight, k)
  }

  function LogSum(channel: string, rs: seq<Record>, weight: Hit -> nat): nat {
    Sum(|rs|, RecordSums(channel, rs, weight))
  }

  function UserSum(archive: Archive, channel: string, users: seq<string>, weight: Hit -> nat, j: nat): nat {
    if j < |users| then LogSum(channel, archive(UserLog(channel, users[j])), weight) else 0
  }

  function UserSums(archive: Archive, channel: string, users: seq<string>, weight: Hit -> nat): nat -> nat {
    (j: nat) => UserSum(archive, channel, users, weight, j)
  }

  function ChannelSum(q: Query, archive: Archive, weight: Hit -> nat, i: nat): nat {
    if i >= |q.channels| then 0
    else if q.allUsers then LogSum(q.channels[i], archive(ChannelLog(q.channels[i])), weight)
    else Sum(|q.users|, UserSums(archive, q.channels[i], q.users, weight))
  }

  function ChannelSums(q: Query, archive: Archive, weight: Hit -> nat): nat -> nat {
    (i: nat) => ChannelSum(q, archive, weight, i)
  }

  /** Over each listed channel, each listed user in it (or all users), and each record of the log. */
  function DirectSum(q: Query, archive: Archive, weight: Hit -> nat): nat {
    Sum(|q.channels|, ChannelSums(q, archive, weight))
  }

  /** How often the target occurs, if the time is in the period. */
  function CountWeight(q: Query): Hit -> nat {
    (h: Hit) =>
      if q.period.begin <= h.entry.time < q.period.end then |Occurrences(h.entry.message, q.target, q.caseless)|
      else 0
  }

  /** 1 for the line x, if its time is in the period and the target occurs in it. */
  function FindWeight(q: Query, x: Hit): Hit -> nat {
    (h: Hit) =>
      if h == x && q.period.begin <= h.entry.time < q.period.end
         && Occurrences(h.entry.message, q.target, q.caseless) != {}
      then 1 else 0
  }

  // ---------- sums over lists of lines ----------

  function Total(hs: seq<Hit>, weight: Hit -> nat): nat {
    if hs == [] then 0 else Total(hs[..|hs| - 1], weight) + weight(hs[|hs| - 1])
  }

  lemma {:induction false} TotalAppend(a: seq<Hit>, b: seq<Hit>, weight: Hit -> nat)
    ensures Total(a + b, weight) == Total(a, weight) + Total(b, weight)
    decreases |b|
  {
    if b == [] {
      assert a + b == a;
    } else {
      assert (a + b)[..|a + b| - 1] == a + b[..|b| - 1];
      TotalAppend(a, b[..|b| - 1], weight);
    }
  }

  function AllHits(archive: Archive, sources: seq<Source>): seq<Hit> {
    if sources == [] then []
    else AllHits(archive, sources[..|sources| - 1]) + SourceHits(archive, sources[|sources| - 1])
  }

  lemma {:induction false} AllHitsAppend(archive: Archive, a: seq<Source>, b: seq<Source>)
    ensures AllHits(archive, a + b) == AllHits(archive, a) + AllHits(archive, b)
    decreases |b|
  {
    hide SourceHits;
    if b == [] {
      assert a + b == a;
    } else {
      assert (a + b)[..|a + b| - 1] == a + b[..|b| - 1];
      AllHitsAppend(archive, a, b[..|b| - 1]);
    }
  }

  lemma {:induction false} DirectHitsOfAll(archive: Archive, sources: seq<Source>, p: TimePeriod)
    ensures DirectHits(archive, sources, p) == InPeriod(AllHits(archive, sources), p)
  {
    hide SourceHits, InPeriod;
    if sources == [] {
      EmptyFilter(p);
    } else {
      var front, last := sources[..|sources| - 1], sources[|sources| - 1];
      DirectHitsOfAll(archive, front, p);
      InPeriodAppend(AllHits(archive, front), SourceHits(archive, last), p);
    }
  }

  lemma {:induction false} TotalOfPrefix(hits: seq<Hit>, f: nat -> nat, weight: Hit -> nat, n: nat)
    requires n <= |hits| && forall r: nat :: r < |hits| ==> f(r) == weight(hits[r])
    ensures Total(hits[..n], weight) == Sum(n, f)
  {
    if n > 0 {
      TotalOfPrefix(hits, f, weight, n - 1);
      assert hits[..n][..n - 1] == hits[..n - 1];
    }
  }

  lemma TotalOfLog(archive: Archive, source: Source, weight: Hit -> nat)
    ensures Total(SourceHits(archive, source), weight) == LogSum(source.channel, archive(source), weight)
  {
    var hits, rs := SourceHits(archive, source), archive(source);
    TotalOfPrefix(hits, RecordSums(source.channel, rs, weight), weight, |rs|);
    assert hits[..|rs|] == hits;
  }

  lemma TotalOfOneMore(archive: Archive, sources: seq<Source>, source: Source, weight: Hit -> nat)
    ensures Total(AllHits(archive, sources + [source]), weight)
         == Total(AllHits(archive, sources), weight) + LogSum(source.channel, archive(source), weight)
  {
    hide SourceHits, LogSum, Total;
    assert (sources + [source])[..|sources|] == sources;
    TotalAppend(AllHits(archive, sources), SourceHits(archive, source), weight);
    TotalOfLog(archive, source, weight);
  }

  lemma {:induction false} TotalOfUsers(archive: Archive, channel: string, users: seq<string>,
                                        weight: Hit -> nat, n: nat)
    requires n <= |users|
    ensures Total(AllHits(archive, UserLogs(channel, users)[..n]), weight)
         == Sum(n, UserSums(archive, channel, users, weight))
  {
    hide LogSum;
    if n > 0 {
      var logs := UserLogs(channel, users);
      TotalOfUsers(archive, channel, users, weight, n - 1);
      assert logs[..n] == logs[..n - 1] + [logs[n - 1]];
      TotalOfOneMore(archive, logs[..n - 1], logs[n - 1], weight);
    }
  }

  lemma TotalOfOneChannel(q: Query, archive: Archive, weight: Hit -> nat, i: nat)
    requires i < |q.channels|
    ensures Total(AllHits(archive, SourcesOf(q.allUsers, q.channels[..i + 1], q.users)), weight)
         == Total(AllHits(archive, SourcesOf(q.allUsers, q.channels[..i], q.users)), weight)
            + ChannelSum(q, archive, weight, i)
  {
    hide LogSum, UserSums, UserLogs, Total, SourcesOf, AllHits, Sum;
    var channel, front := q.channels[i], SourcesOf(q.allUsers, q.channels[..i], q.users);
    SourcesSnoc(q.allUsers, q.channels, i, q.users);
    if q.allUsers {
      TotalOfOneMore(archive, front, ChannelLog(channel), weight);
    } else {
      var logs := UserLogs(channel, q.users);
      UserLogCount(channel, q.users);
      AllHitsAppend(archive, front, logs);
      TotalAppend(AllHits(archive, front), AllHits(archive, logs), weight);
      TotalOfUsers(archive, channel, q.users, weight, |q.users|);
      assert logs[..|q.users|] == logs;
    }
  }

  lemma {:induction false} TotalOfChannels(q: Query, archive: Archive, weight: Hit -> nat, n: nat)
    requires n <= |q.channels|
    ensures Total(AllHits(archive, SourcesOf(q.allUsers, q.channels[..n], q.users)), weight)
         == Sum(n, ChannelSums(q, archive, weight))
  {
    hide ChannelSum, Total;
    if n == 0 {
      assert Total([], weight) == 0 by { NoTotal(weight); }
    } else {
      TotalOfChannels(q, archive, weight, n - 1);
      TotalOfOneChannel(q, archive, weight, n - 1);
    }
  }

  lemma NoTotal(weight: Hit -> nat)
    ensures Total([], weight) == 0
  {
  }

  lemma CountInSnoc(hs: seq<Hit>, h: Hit, target: string, caseless: bool)
    ensures CountIn(hs + [h], target, caseless)
         == CountIn(hs, target, caseless) + |Matches(h.entry.message, target, caseless)|
  {
    hide Matches;
    assert (hs + [h])[..|hs|] == hs;
  }

  lemma ContainingSnoc(hs: seq<Hit>, h: Hit, target: string, caseless: bool)
    ensures Containing(hs + [h], target, caseless)
         == Containing(hs, target, caseless) + if FindFunc(h.entry.message, target, caseless) then [h] else []
  {
    hide FindFunc;
    assert (hs + [h])[..|hs|] == hs;
  }

  lemma {:induction false} CountIsTotal(q: Query, hs: seq<Hit>)
    ensures CountIn(InPeriod(hs, q.period), q.target, q.caseless) == Total(hs, CountWeight(q))
  {
    hide Matches, Occurrences, CountIn;
    if hs == [] {
      assert CountIn([], q.target, q.caseless) == 0 by { NothingCounted(q); }
    } else {
      var front, last := hs[..|hs| - 1], hs[|hs| - 1];
      CountIsTotal(q, front);
      MatchesAreOccurrences(last.entry.message, q.target, q.caseless);
      CountInSnoc(InPeriod(front, q.period), last, q.target, q.caseless);
      assert InPeriod(front, q.period) + [] == InPeriod(front, q.period);
    }
  }

  lemma NothingCounted(q: Query)
    ensures CountIn([], q.target, q.caseless) == 0
    ensures Containing([], q.target, q.caseless) == []
  {
  }

  lemma {:induction false} FindIsTotal(q: Query, hs: seq<Hit>, x: Hit)
    ensures multiset(Containing(InPeriod(hs, q.period), q.target, q.caseless))[x] == Total(hs, FindWeight(q, x))
  {
    hide FindFunc, Occurrences, Containing;
    if hs == [] {
      NothingCounted(q);
    } else {
      var front, last := hs[..|hs| - 1], hs[|hs| - 1];
      FindIsTotal(q, front, x);
      FindAgreesWithCount(last.entry.message, q.target, q.caseless);
      ContainingSnoc(InPeriod(front, q.period), last, q.target, q.caseless);
      assert InPeriod(front, q.period) + [] == InPeriod(front, q.period);
    }
  }

  // ---------- main results ----------

  lemma DirectTotal(q: Query, archive: Archive, weight: Hit -> nat)
    ensures Total(AllHits(archive, Sources(q)), weight) == DirectSum(q, archive, weight)
  {
    TotalOfChannels(q, archive, weight, |q.channels|);
    assert q.channels[..|q.channels|] == q.channels;
  }

  /** The count of the direct pass is the number of occurrences, summed over channels, users and records. */
  lemma DirectCount(q: Query, archive: Archive)
    ensures CountIn(DirectHits(archive, Sources(q), q.period), q.target, q.caseless)
         == DirectSum(q, archive, CountWeight(q))
  {
    hide DirectSum, CountWeight, Total, AllHits, DirectHits, CountIn, InPeriod;
    DirectHitsOfAll(archive, Sources(q), q.period);
    CountIsTotal(q, AllHits(archive, Sources(q)));
    DirectTotal(q, archive, CountWeight(q));
  }

  /** The direct pass finds a line as often as a record of a listed channel and user says it. */
  lemma DirectFinds(q: Query, archive: Archive, x: Hit)
    ensures multiset(Containing(DirectHits(archive, Sources(q), q.period), q.target, q.caseless))[x]
         == DirectSum(q, archive, FindWeight(q, x))
  {
    hide DirectSum, FindWeight, Total, AllHits, DirectHits, Containing, InPeriod;
    DirectHitsOfAll(archive, Sources(q), q.period);
    FindIsTotal(q, AllHits(archive, Sources(q)), x);
    DirectTotal(q, archive, FindWeight(q, x));
  }
}
