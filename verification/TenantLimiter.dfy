/**
 The per-organization concurrency limiter. Acquiring is two Redis commands, a count and an add, so
 other clients' commands may fall between them; each command by itself is atomic.
 */
module TenantLimiter {
  import opened Collections

  /** `admitted` holds the acquirers that passed the count and have not added themselves yet. */
  datatype Shared = Shared(members: map<string, set<string>>, admitted: map<string, multiset<string>>)

  datatype Command =
    | Count(organization: string, job: string)
    | Add(organization: string, job: string)
    | Remove(organization: string, job: string)

  function Members(s: Shared, organization: string): set<string> {
    if organization in s.members then s.members[organization] else {}
  }

  function Admitted(s: Shared, organization: string): multiset<string> {
    if organization in s.admitted then s.admitted[organization] else multiset{}
  }

  predicate Passes(s: Shared, organization: string, limit: int) { |Members(s, organization)| < limit }

  /** Only an admitted acquirer adds itself; a count that fails ends its acquisition. */
  predicate CanRun(s: Shared, c: Command) { c.Add? ==> c.job in Admitted(s, c.organization) }

  function Run(s: Shared, limit: int, c: Command): Shared {
    match c
    case Count(o, job) =>
      if Passes(s, o, limit) then s.(admitted := s.admitted[o := Admitted(s, o) + multiset{job}]) else s
    case Add(o, job) =>
      Shared(s.members[o := Members(s, o) + {job}], s.admitted[o := Admitted(s, o) - multiset{job}])
    case Remove(o, job) => s.(members := s.members[o := Members(s, o) - {job}])
  }

  const IDLE := Shared(map[], map[])

  function After(limit: int, commands: seq<Command>): Shared {
    if commands == [] then IDLE
    else Run(After(limit, commands[..|commands| - 1]), limit, commands[|commands| - 1])
  }

  /** Every command was allowed when it ran, and at most k acquirers of a tenant were ever in between. */
  ghost predicate Schedule(limit: int, k: nat, commands: seq<Command>) {
    commands == []
    || (&& Schedule(limit, k, commands[..|commands| - 1])
        && CanRun(After(limit, commands[..|commands| - 1]), commands[|commands| - 1])
        && forall o: string :: |Admitted(After(limit, commands), o)| <= k)
  }

  lemma AfterSnoc(limit: int, commands: seq<Command>, c: Command)
    ensures After(limit, commands + [c]) == Run(After(limit, commands), limit, c)
  {
    var all := commands + [c];
    assert all[..|all| - 1] == commands;
    hide Run;
  }

  lemma AddedSize(s: set<string>, x: string)
    ensures |s + {x}| <= |s| + 1 && |s - {x}| <= |s|
  {
    if x in s {
      assert s + {x} == s;
      assert s == (s - {x}) + {x};
    } else {
      assert s - {x} == s;
    }
  }

  lemma RunBound(s: Shared, limit: int, k: nat, c: Command, o: string)
    requires k >= 1 && limit >= 1 && CanRun(s, c)
    requires |Members(s, o)| + |Admitted(s, o)| <= limit - 1 + k && |Admitted(Run(s, limit, c), o)| <= k
    ensures |Members(Run(s, limit, c), o)| + |Admitted(Run(s, limit, c), o)| <= limit - 1 + k
  {
    if c.organization == o { AddedSize(Members(s, o), c.job); }
  }

  /** However the commands of many clients interleave, the limit is exceeded by at most k - 1. */
  lemma {:induction false} LimitHoldsUpToRaces(limit: int, k: nat, commands: seq<Command>, o: string)
    requires limit >= 1 && k >= 1 && Schedule(limit, k, commands)
    ensures |Members(After(limit, commands), o)| + |Admitted(After(limit, commands), o)| <= limit - 1 + k
  {
    if commands != [] {
      var n := |commands| - 1;
      LimitHoldsUpToRaces(limit, k, commands[..n], o);
      assert |Admitted(After(limit, commands), o)| <= k;
      RunBound(After(limit, commands[..n]), limit, k, commands[n], o);
    }
  }

  /** Used by one client at a time, the limit is never exceeded. */
  lemma SerialUseKeepsLimit(limit: int, commands: seq<Command>, o: string)
    requires limit >= 1 && Schedule(limit, 1, commands)
    ensures |Members(After(limit, commands), o)| <= limit
  {
    LimitHoldsUpToRaces(limit, 1, commands, o);
  }

  // ---------------------------------------------------------------- the bound is reached

  function Serially(o: string, jobs: seq<string>): seq<Command> {
    if jobs == [] then [] else
    Serially(o, jobs[..|jobs| - 1]) + [Count(o, jobs[|jobs| - 1]), Add(o, jobs[|jobs| - 1])]
  }

  function Counts(o: string, jobs: seq<string>): seq<Command> {
    seq(|jobs|, i requires 0 <= i < |jobs| => Count(o, jobs[i]))
  }

  function Adds(o: string, jobs: seq<string>): seq<Command> {
    seq(|jobs|, i requires 0 <= i < |jobs| => Add(o, jobs[i]))
  }

  lemma ElementsSnoc(jobs: seq<string>)
    requires jobs != []
    ensures SetOf(jobs) == SetOf(jobs[..|jobs| - 1]) + {jobs[|jobs| - 1]}
  {
    assert jobs == jobs[..|jobs| - 1] + [jobs[|jobs| - 1]];
  }

  /** A state in which only one tenant is active. */
  ghost predicate Only(s: Shared, o: string, members: set<string>, admitted: multiset<string>) {
    && Members(s, o) == members && Admitted(s, o) == admitted
    && forall other: string :: other != o ==> Admitted(s, other) == multiset{}
  }

  ghost predicate Reaches(
    limit: int, k: nat, commands: seq<Command>, o: string, members: set<string>, admitted: multiset<string>)
  {
    Schedule(limit, k, commands) && Only(After(limit, commands), o, members, admitted)
  }

  /** A command that keeps its tenant within bounds keeps the schedule. */
  lemma ReachExtends(
    limit: int, k: nat, commands: seq<Command>, o: string, m: set<string>, a: multiset<string>, c: Command)
    requires Reaches(limit, k, commands, o, m, a) && c.organization == o && CanRun(After(limit, commands), c)
    requires |Admitted(Run(After(limit, commands), limit, c), o)| <= k
    ensures var s := Run(After(limit, commands), limit, c);
            Reaches(limit, k, commands + [c], o, Members(s, o), Admitted(s, o))
  {
    var all, s := commands + [c], Run(After(limit, commands), limit, c);
    assert all[..|all| - 1] == commands && After(limit, all) == s;
    forall other: string | other != o ensures Admitted(s, other) == multiset{} {
      assert Admitted(s, other) == Admitted(After(limit, commands), other);
    }
    forall x: string ensures |Admitted(After(limit, all), x)| <= k {
      assert Admitted(s, x) == Admitted(After(limit, all), x);
    }
  }

  lemma CountExtends(
    limit: int, k: nat, commands: seq<Command>, o: string, m: set<string>, a: multiset<string>, job: string)
    requires Reaches(limit, k, commands, o, m, a) && |m| < limit && |a| < k
    ensures Reaches(limit, k, commands + [Count(o, job)], o, m, a + multiset{job})
  {
    ReachExtends(limit, k, commands, o, m, a, Count(o, job));
  }

  lemma AddExtends(
    limit: int, k: nat, commands: seq<Command>, o: string, m: set<string>, a: multiset<string>, job: string)
    requires Reaches(limit, k, commands, o, m, a + multiset{job}) && |a| <= k
    ensures Reaches(limit, k, commands + [Add(o, job)], o, m + {job}, a)
  {
    assert a + multiset{job} - multiset{job} == a;
    ReachExtends(limit, k, commands, o, m, a + multiset{job}, Add(o, job));
  }

  lemma DistinctFront(jobs: seq<string>)
    requires Distinct(jobs) && jobs != []
    ensures Distinct(jobs[..|jobs| - 1])
  {}

  lemma SeriallySnoc(o: string, jobs: seq<string>)
    requires jobs != []
    ensures var n := |jobs| - 1;
            Serially(o, jobs) == Serially(o, jobs[..n]) + [Count(o, jobs[n])] + [Add(o, jobs[n])]
  {}

  lemma NothingYet(limit: int, k: nat, o: string)
    ensures Reaches(limit, k, Serially(o, []), o, SetOf([]), multiset{})
  {}

  lemma {:induction false} SerialPhase(limit: int, k: nat, o: string, jobs: seq<string>)
    requires k >= 1 && |jobs| <= limit && Distinct(jobs)
    ensures Reaches(limit, k, Serially(o, jobs), o, SetOf(jobs), multiset{})
  {
    if jobs == [] {
      NothingYet(limit, k, o);
    } else {
      hide *;
      var n := |jobs| - 1;
      DistinctFront(jobs);
      SerialPhase(limit, k, o, jobs[..n]);
      DistinctSize(jobs[..n]);
      ElementsSnoc(jobs);
      var commands := Serially(o, jobs[..n]);
      CountExtends(limit, k, commands, o, SetOf(jobs[..n]), multiset{}, jobs[n]);
      AddExtends(limit, k, commands + [Count(o, jobs[n])], o, SetOf(jobs[..n]), multiset{}, jobs[n]);
SeriallySnoc(o, jobs);
    }
  }

  lemma {:induction false} CountPhase(
    limit: int, k: nat, o: string, before: seq<Command>, m: set<string>, jobs: seq<string>)
    requires Reaches(limit, k, before, o, m, multiset{}) && |m| < limit && |jobs| <= k
    ensures Reaches(limit, k, before + Counts(o, jobs), o, m, multiset(jobs))
  {
    hide Reaches;
    if jobs == [] {
      assert before + Counts(o, jobs) == before;
    } else {
      var n := |jobs| - 1;
      CountPhase(limit, k, o, before, m, jobs[..n]);
      assert jobs == jobs[..n] + [jobs[n]];
      CountExtends(limit, k, before + Counts(o, jobs[..n]), o, m, multiset(jobs[..n]), jobs[n]);
      assert before + Counts(o, jobs) == before + Counts(o, jobs[..n]) + [Count(o, jobs[n])];
    }
  }

  lemma {:induction false} AddPhase(
    limit: int, k: nat, o: string, before: seq<Command>, m: set<string>, jobs: seq<string>, rest: multiset<string>)
    requires Reaches(limit, k, before, o, m, multiset(jobs) + rest) && |jobs| + |rest| <= k
    ensures Reaches(limit, k, before + Adds(o, jobs), o, m + SetOf(jobs), rest)
  {
    hide Reaches;
    if jobs == [] {
      assert before + Adds(o, jobs) == before;
      assert m + SetOf(jobs) == m;
      assert multiset(jobs) + rest == rest;
    } else {
      var n := |jobs| - 1;
      assert jobs == jobs[..n] + [jobs[n]];
      assert multiset(jobs) + rest == multiset(jobs[..n]) + (rest + multiset{jobs[n]});
      AddPhase(limit, k, o, before, m, jobs[..n], rest + multiset{jobs[n]});
      ElementsSnoc(jobs);
      hide SetOf;
      var soFar := before + Adds(o, jobs[..n]);
      AddExtends(limit, k, soFar, o, m + SetOf(jobs[..n]), rest, jobs[n]);
      assert before + Adds(o, jobs) == soFar + [Add(o, jobs[n])];
      assert m + SetOf(jobs) == m + SetOf(jobs[..n]) + {jobs[n]};
    }
  }

  lemma ElementsSplit(jobs: seq<string>, n: nat)
    requires n <= |jobs|
    ensures SetOf(jobs[..n]) + SetOf(jobs[n..]) == SetOf(jobs)
  {
    assert jobs == jobs[..n] + jobs[n..];
  }

  /** The bound is exact: limit - 1 members, then k counts before k adds, make limit - 1 + k members. */
  lemma RacesReachTheBound(limit: int, k: nat, o: string, jobs: seq<string>) returns (commands: seq<Command>)
    requires limit >= 1 && k >= 1 && |jobs| == limit - 1 + k && Distinct(jobs)
    ensures Schedule(limit, k, commands) && |Members(After(limit, commands), o)| == limit - 1 + k
  {
    var early, late := jobs[..limit - 1], jobs[limit - 1..];
    DistinctSize(early);
    DistinctSize(jobs);
    ElementsSplit(jobs, limit - 1);
    hide SetOf, After, Schedule, Reaches;
    SerialPhase(limit, k, o, early);
    commands := RacePhase(limit, k, o, Serially(o, early), SetOf(early), late);
    assert Schedule(limit, k, commands) && Members(After(limit, commands), o) == SetOf(jobs) by {
      ReachesEnds(limit, k, commands, o, SetOf(jobs), multiset{});
    }
  }

  lemma RacePhase(limit: int, k: nat, o: string, before: seq<Command>, m: set<string>, jobs: seq<string>)
    returns (commands: seq<Command>)
    requires Reaches(limit, k, before, o, m, multiset{}) && |m| < limit && |jobs| <= k
    ensures Reaches(limit, k, commands, o, m + SetOf(jobs), multiset{})
  {
    hide Reaches, SetOf;
    CountPhase(limit, k, o, before, m, jobs);
    assert multiset(jobs) + multiset{} == multiset(jobs);
    AddPhase(limit, k, o, before + Counts(o, jobs), m, jobs, multiset{});
    commands := before + Counts(o, jobs) + Adds(o, jobs);
  }

  lemma ReachesEnds(
    limit: int, k: nat, commands: seq<Command>, o: string, m: set<string>, admitted: multiset<string>)
    requires Reaches(limit, k, commands, o, m, admitted)
    ensures Schedule(limit, k, commands) && Members(After(limit, commands), o) == m
  {}

  // ---------------------------------------------------------------- membership and isolation

  /** The job was added for the tenant and has not been released since. */
  ghost predicate Holds(commands: seq<Command>, o: string, job: string) {
    exists i | 0 <= i < |commands| ::
      commands[i] == Add(o, job) && forall j | i < j < |commands| :: commands[j] != Remove(o, job)
  }

  lemma HoldsSnoc(commands: seq<Command>, c: Command, o: string, job: string)
    ensures Holds(commands + [c], o, job) <==> c == Add(o, job) || (Holds(commands, o, job) && c != Remove(o, job))
  {
    var all, n := commands + [c], |commands|;
    if c == Add(o, job) { assert all[n] == Add(o, job); }
    if Holds(commands, o, job) && c != Remove(o, job) {
      var i :| 0 <= i < n && commands[i] == Add(o, job) && forall j | i < j < n :: commands[j] != Remove(o, job);
      assert all[i] == Add(o, job);
    }
    if Holds(all, o, job) && c != Add(o, job) {
      var i :| 0 <= i <= n && all[i] == Add(o, job) && forall j | i < j <= n :: all[j] != Remove(o, job);
      assert commands[i] == Add(o, job) && forall j | i < j < n :: commands[j] == all[j];
      assert all[n] == c;
    }
  }

  lemma NobodyHolds(limit: int, o: string, job: string)
    ensures job !in Members(After(limit, []), o) && !Holds([], o, job)
  {}

  lemma MemberSnoc(s: Shared, limit: int, c: Command, o: string, job: string)
    ensures job in Members(Run(s, limit, c), o)
            <==> c == Add(o, job) || (job in Members(s, o) && c != Remove(o, job))
  {}

  /** A tenant's set holds exactly the jobs that were added and not released: none, once all have been. */
  lemma {:induction false} MembersAreTheHolders(limit: int, commands: seq<Command>, o: string, job: string)
    ensures job in Members(After(limit, commands), o) <==> Holds(commands, o, job)
  {
    hide Holds, Members, Run;
    if commands == [] {
      NobodyHolds(limit, o, job);
    } else {
      hide After;
      var n := |commands| - 1;
      MembersAreTheHolders(limit, commands[..n], o, job);
      HoldsSnoc(commands[..n], commands[n], o, job);
      assert commands == commands[..n] + [commands[n]];
      AfterSnoc(limit, commands[..n], commands[n]);
      MemberSnoc(After(limit, commands[..n]), limit, commands[n], o, job);
    }
  }

  /** The commands of one tenant. */
  function OwnCommands(commands: seq<Command>, o: string): seq<Command> {
    if commands == [] then [] else
    OwnCommands(commands[..|commands| - 1], o)
    + if commands[|commands| - 1].organization == o then [commands[|commands| - 1]] else []
  }

  lemma OwnSnoc(commands: seq<Command>, o: string)
    requires commands != []
    ensures var n := |commands| - 1;
            OwnCommands(commands, o)
            == OwnCommands(commands[..n], o) + if commands[n].organization == o then [commands[n]] else []
  {}

  ghost predicate SameFor(s: Shared, t: Shared, o: string) {
    Members(s, o) == Members(t, o) && Admitted(s, o) == Admitted(t, o)
  }

  /** A command acts on its tenant alone, and only according to that tenant's own state. */
  lemma RunIsLocal(s: Shared, t: Shared, limit: int, c: Command, o: string)
    requires SameFor(s, t, o)
    ensures c.organization == o ==> SameFor(Run(s, limit, c), Run(t, limit, c), o)
    ensures c.organization != o ==> SameFor(Run(s, limit, c), t, o)
  {}

  lemma {:induction false} SameForOwn(limit: int, commands: seq<Command>, o: string)
    ensures SameFor(After(limit, commands), After(limit, OwnCommands(commands, o)), o)
  {
    if commands == [] {
      assert OwnCommands(commands, o) == commands;
    } else {
      hide *;
      var n := |commands| - 1;
      SameForOwn(limit, commands[..n], o);
      var own := OwnCommands(commands[..n], o);
      OwnSnoc(commands, o);
      RunIsLocal(After(limit, commands[..n]), After(limit, own), limit, commands[n], o);
      assert commands == commands[..n] + [commands[n]];
      AfterSnoc(limit, commands[..n], commands[n]);
      AfterSnoc(limit, own, commands[n]);
      assert own + [] == own;
    }
  }

  /** What other tenants do makes no difference to a tenant's set. */
  lemma TenantsAreIsolated(limit: int, commands: seq<Command>, o: string)
    ensures Members(After(limit, commands), o) == Members(After(limit, OwnCommands(commands, o)), o)
    ensures Admitted(After(limit, commands), o) == Admitted(After(limit, OwnCommands(commands, o)), o)
  {
    hide After, OwnCommands;
    SameForOwn(limit, commands, o);
  }

  // ---------------------------------------------------------------- the limiter object

  class TenantConcurrencyLimiter {
    var shared: Shared
    const limit: int

    constructor (limit: int)
      ensures this.limit == limit && shared == IDLE
    {
      this.limit := limit;
      shared := IDLE;
    }

    /** An acquisition that nothing interrupts. */
    method TryAcquire(organization: string, job: string) returns (acquired: bool)
      modifies this`shared
      ensures acquired <==> |Members(old(shared), organization)| < limit
      ensures acquired ==>
                shared == Run(Run(old(shared), limit, Count(organization, job)), limit, Add(organization, job))
      ensures acquired ==> Members(shared, organization) == Members(old(shared), organization) + {job}
      ensures !acquired ==> shared == old(shared)
    {
      var count := |Members(shared, organization)|;
      if count >= limit { return false; }
      shared := Run(shared, limit, Count(organization, job));
      shared := Run(shared, limit, Add(organization, job));
      acquired := true;
    }

    method Release(organization: string, job: string)
      modifies this`shared
      ensures shared == Run(old(shared), limit, Remove(organization, job))
      ensures Members(shared, organization) == Members(old(shared), organization) - {job}
    {
      shared := Run(shared, limit, Remove(organization, job));
    }

    method CurrentCount(organization: string) returns (count: nat)
      ensures count == |Members(shared, organization)|
    {
      count := |Members(shared, organization)|;
    }
  }
}
