/** Folding the operator's box configuration, a repository's requests and per-task overrides into one
    effective configuration, with a warning for every clamp. */
module RepoConfig {
  import opened Protocol
  import Text

  datatype Profile = Profile(vcpus: int, mem: int, disk: int)

  datatype Box = Box(
    agent: string, model: string, resources: string, keepAlive: int,
    maxRounds: int, autoFixCI: bool, instructions: string,
    profiles: map<string, Profile>, maxProfile: string,
    costCeiling: real, hardTTL: int, agentsAllowed: seq<string>, modelsAllowed: seq<string>)

  datatype Review = Review(maxRounds: Option<int>, autoFixCI: Option<bool>)

  datatype Repo = Repo(
    agent: string, model: string, resources: string, keepAlive: Option<int>,
    review: Option<Review>, instructions: string,
    costCeiling: Option<real>, concurrency: Option<int>, egress: bool, secrets: bool)

  // The per-task overrides; zero and empty mean unset.
  datatype Task = Task(vcpus: int, mem: int, model: string)

  datatype Policy = Policy(maxRounds: int, autoFixCI: bool, costCeiling: real, hardTTL: int, keepAlive: int)

  datatype Warning =
    | UndefinedProfile(name: string, using: string)
    | ProfileExceedsMax(name: string, using: string)
    | ModelNotAllowed(name: string, using: string)
    | AgentNotAllowed(name: string, using: string)
    | KeepAliveClamped(asked: int, ttl: int)
    | CostCeilingIgnored | ConcurrencyIgnored | EgressIgnored | SecretsIgnored

  datatype Resolved = Resolved(
    vcpus: int, mem: int, model: string, agent: string, instructions: string, policy: Policy, warnings: seq<Warning>)

  function FirstNonEmpty(vals: seq<string>): string {
    if vals == [] then "" else if Text.Trim(vals[0]) != "" then vals[0] else FirstNonEmpty(vals[1..])
  }

  // An empty allowlist allows anything.
  predicate Allowed(list: seq<string>, v: string) { list == [] || v in list }

  // An upper bound that is not positive does not bound, and a low value becomes lo even above hi.
  function ClampInt(v: int, lo: int, hi: int): int {
    if v < lo then lo else if hi > 0 && v > hi then hi else v
  }

  // A profile that is not in the map reads as the zero value.
  function Lookup(profiles: map<string, Profile>, name: string): Profile {
    if name in profiles then profiles[name] else Profile(0, 0, 0)
  }

  // ---- ranks ----

  predicate Smaller(a: Profile, b: Profile) {
    a.vcpus < b.vcpus || (a.vcpus == b.vcpus && a.mem < b.mem)
  }

  // What sorting the names by size leaves: any order of ties, whatever order the map was walked in.
  ghost predicate SortedNames(profiles: map<string, Profile>, order: seq<string>) {
    && (forall n :: n in order <==> n in profiles)
    && (forall i, j :: 0 <= i < j < |order| ==> order[i] != order[j])
    && (forall i, j :: 0 <= i < j < |order| ==> !Smaller(profiles[order[j]], profiles[order[i]]))
  }

  // The position of a name, or -1.
  ghost function Rank(order: seq<string>, name: string): (r: int)
    ensures if name in order then 0 <= r < |order| && order[r] == name else r == -1
  {
    if name in order then var i :| 0 <= i < |order| && order[i] == name; i else -1
  }

  // The loop of profileRank over the sorted names.
  method ProfileRank(profiles: map<string, Profile>, order: seq<string>, name: string) returns (r: int)
    requires SortedNames(profiles, order)
    ensures r == Rank(order, name) && (r == -1 <==> name !in profiles)
  {
    for i := 0 to |order|
      invariant name !in order[..i]
    {
      if order[i] == name { return i; }
      assert order[..i + 1] == order[..i] + [order[i]];
    }
    assert order[..|order|] == order;
    return -1;
  }

  function Elements(s: seq<string>): set<string> { set x | x in s }

  lemma {:induction false} ElementCount(s: seq<string>)
    ensures |Elements(s)| <= |s|
    ensures (forall i, j :: 0 <= i < j < |s| ==> s[i] != s[j]) ==> |Elements(s)| == |s|
  {
    if s == [] {
      assert Elements(s) == {};
    } else {
      var n := |s| - 1;
      ElementCount(s[..n]);
      assert Elements(s) == Elements(s[..n]) + {s[n]};
    }
  }

  // A strictly smaller profile ranks strictly lower, even if the two ranks come from two sorts that
  // ordered ties differently.
  lemma SmallerRanksLower(profiles: map<string, Profile>, o: seq<string>, o': seq<string>, a: string, b: string)
    requires SortedNames(profiles, o) && SortedNames(profiles, o')
    requires a in profiles && b in profiles && Smaller(profiles[a], profiles[b])
    ensures Rank(o, a) < Rank(o', b)
  {
    var i, j := Rank(o, a), Rank(o', b);
    var low, high := o[..i + 1], o'[..j];
    forall x | x in Elements(low) ensures x in Elements(high) {
      var k :| 0 <= k <= i && o[k] == x;
      assert !Smaller(profiles[a], profiles[x]);
      assert x in profiles && x in o';
      var m :| 0 <= m < |o'| && o'[m] == x;
      assert m < j;
      assert high[m] == x;
    }
    ElementCount(low);
    ElementCount(high);
    SubsetSize(Elements(low), Elements(high));
  }

  lemma {:induction false} SubsetSize(a: set<string>, b: set<string>)
    requires a <= b
    ensures |a| <= |b|
  {
    if a != {} {
      var x :| x in a;
      SubsetSize(a - {x}, b - {x});
    }
  }

  // ---- resolving ----

  function Requested(box: Box, repo: Repo): string { FirstNonEmpty([repo.resources, box.resources]) }

  function RequestedModel(box: Box, repo: Repo, task: Task): string {
    FirstNonEmpty([task.model, repo.model, box.model])
  }

  function RequestedAgent(box: Box, repo: Repo): string { FirstNonEmpty([repo.agent, box.agent]) }

  // The two ranks come from two separate sorts.
  ghost predicate Exceeds(box: Box, name: string, o: seq<string>, o': seq<string>) {
    box.maxProfile != "" && Rank(o, name) > Rank(o', box.maxProfile)
  }

  function Defined(box: Box, name: string): string { if name in box.profiles then name else box.resources }

  ghost function Granted(box: Box, repo: Repo, o: seq<string>, o': seq<string>): string {
    var name := Defined(box, Requested(box, repo));
    if Exceeds(box, name, o, o') then box.maxProfile else name
  }

  ghost function ProfileWarnings(box: Box, repo: Repo, o: seq<string>, o': seq<string>): seq<Warning> {
    var asked := Requested(box, repo);
    var name := Defined(box, asked);
    (if asked in box.profiles then [] else [UndefinedProfile(asked, box.resources)]) +
    (if Exceeds(box, name, o, o') then [ProfileExceedsMax(name, box.maxProfile)] else [])
  }

  function ListWarnings(box: Box, repo: Repo, task: Task): seq<Warning> {
    var model, agent := RequestedModel(box, repo, task), RequestedAgent(box, repo);
    (if Allowed(box.modelsAllowed, model) then [] else [ModelNotAllowed(model, box.model)]) +
    (if Allowed(box.agentsAllowed, agent) then [] else [AgentNotAllowed(agent, box.agent)])
  }

  predicate OutlivesTTL(box: Box, repo: Repo) {
    repo.keepAlive.Some? && box.hardTTL > 0 && repo.keepAlive.value > box.hardTTL
  }

  function PolicyWarnings(box: Box, repo: Repo): seq<Warning> {
    if OutlivesTTL(box, repo) then [KeepAliveClamped(repo.keepAlive.value, box.hardTTL)] else []
  }

  function OperatorOnly(repo: Repo): seq<Warning> {
    (if repo.costCeiling.Some? then [CostCeilingIgnored] else []) +
    (if repo.concurrency.Some? then [ConcurrencyIgnored] else []) +
    (if repo.egress then [EgressIgnored] else []) +
    (if repo.secrets then [SecretsIgnored] else [])
  }

  function OrElse<T>(o: Option<T>, d: T): T { if o.Some? then o.value else d }

  function ResolvePolicy(box: Box, repo: Repo): Policy {
    var review := OrElse(repo.review, Review(None, None));
    Policy(OrElse(review.maxRounds, box.maxRounds), OrElse(review.autoFixCI, box.autoFixCI),
           box.costCeiling, box.hardTTL,
           if OutlivesTTL(box, repo) then box.hardTTL else OrElse(repo.keepAlive, box.keepAlive))
  }

  ghost function Resolve(box: Box, repo: Repo, task: Task, o: seq<string>, o': seq<string>): Resolved {
    var prof := Lookup(box.profiles, Granted(box, repo, o, o'));
    var model, agent := RequestedModel(box, repo, task), RequestedAgent(box, repo);
    Resolved(
      if task.vcpus != 0 then ClampInt(task.vcpus, 1, prof.vcpus) else prof.vcpus,
      if task.mem != 0 then ClampInt(task.mem, 512, prof.mem) else prof.mem,
      if Allowed(box.modelsAllowed, model) then model else box.model,
      if Allowed(box.agentsAllowed, agent) then agent else box.agent,
      FirstNonEmpty([repo.instructions, box.instructions]),
      ResolvePolicy(box, repo),
      ProfileWarnings(box, repo, o, o') + ListWarnings(box, repo, task)
      + PolicyWarnings(box, repo) + OperatorOnly(repo))
  }

  method ResolveConfig(box: Box, repo: Repo, task: Task, o: seq<string>, o': seq<string>) returns (r: Resolved)
    requires SortedNames(box.profiles, o) && SortedNames(box.profiles, o')
    ensures r == Resolve(box, repo, task, o, o')
  {
    hide SortedNames, FirstNonEmpty, Text.Trim;
    var warn: seq<Warning> := [];
    var profName := FirstNonEmpty([repo.resources, box.resources]);
    if profName !in box.profiles {
      warn := warn + [UndefinedProfile(profName, box.resources)];
      profName := box.resources;
    }
    if box.maxProfile != "" {
      var r0 := ProfileRank(box.profiles, o, profName);
      var r1 := ProfileRank(box.profiles, o', box.maxProfile);
      if r0 > r1 {
        warn := warn + [ProfileExceedsMax(profName, box.maxProfile)];
        profName := box.maxProfile;
      }
    }
    assert profName == Granted(box, repo, o, o') && warn == ProfileWarnings(box, repo, o, o');
    ghost var first := warn;
    hide Exceeds, ProfileWarnings, Granted;
    var prof := Lookup(box.profiles, profName);
    var vcpus, mem := prof.vcpus, prof.mem;
    if task.vcpus != 0 { vcpus := ClampInt(task.vcpus, 1, prof.vcpus); }
    if task.mem != 0 { mem := ClampInt(task.mem, 512, prof.mem); }
    var model := FirstNonEmpty([task.model, repo.model, box.model]);
    if !Allowed(box.modelsAllowed, model) {
      warn := warn + [ModelNotAllowed(model, box.model)];
      model := box.model;
    }
    var agent := FirstNonEmpty([repo.agent, box.agent]);
    if !Allowed(box.agentsAllowed, agent) {
      warn := warn + [AgentNotAllowed(agent, box.agent)];
      agent := box.agent;
    }
    assert warn == first + ListWarnings(box, repo, task);
    hide ListWarnings;
    var pol, clamped := PolicyOf(box, repo);
    var ignored := IgnoredKeys(repo);
    return Resolved(vcpus, mem, model, agent, FirstNonEmpty([repo.instructions, box.instructions]), pol,
                    warn + clamped + ignored);
  }

  method PolicyOf(box: Box, repo: Repo) returns (pol: Policy, warn: seq<Warning>)
    ensures pol == ResolvePolicy(box, repo) && warn == PolicyWarnings(box, repo)
  {
    warn := [];
    pol := Policy(box.maxRounds, box.autoFixCI, box.costCeiling, box.hardTTL, box.keepAlive);
    if repo.review.Some? {
      if repo.review.value.maxRounds.Some? { pol := pol.(maxRounds := repo.review.value.maxRounds.value); }
      if repo.review.value.autoFixCI.Some? { pol := pol.(autoFixCI := repo.review.value.autoFixCI.value); }
    }
    if repo.keepAlive.Some? {
      var ka := repo.keepAlive.value;
      if pol.hardTTL > 0 && ka > pol.hardTTL {
        warn := warn + [KeepAliveClamped(ka, pol.hardTTL)];
        ka := pol.hardTTL;
      }
      pol := pol.(keepAlive := ka);
    }
  }

  method IgnoredKeys(repo: Repo) returns (warn: seq<Warning>)
    ensures warn == OperatorOnly(repo)
  {
    warn := [];
    if repo.costCeiling.Some? { warn := warn + [CostCeilingIgnored]; }
    if repo.concurrency.Some? { warn := warn + [ConcurrencyIgnored]; }
    if repo.egress { warn := warn + [EgressIgnored]; }
    if repo.secrets { warn := warn + [SecretsIgnored]; }
  }

  // ---- what a resolution means ----

  // The profile asked for, or the default in its place, exists; and so does the maximum, if there is one.
  predicate Grantable(box: Box, repo: Repo) {
    && Defined(box, Requested(box, repo)) in box.profiles
    && (box.maxProfile == "" || box.maxProfile in box.profiles)
  }

  // Every profile is a VM one can boot.
  ghost predicate Bootable(box: Box) {
    forall n :: n in box.profiles ==> box.profiles[n].vcpus >= 1 && box.profiles[n].mem >= 512
  }

  // The requested profile if it exists, else the default, cut down to the maximum if there is one.
  function GrantedSize(box: Box, repo: Repo): Profile {
    var asked := Lookup(box.profiles, Defined(box, Requested(box, repo)));
    var most := Lookup(box.profiles, box.maxProfile);
    if box.maxProfile != "" && Smaller(most, asked) then most else asked
  }

  predicate SameSize(a: Profile, b: Profile) { a.vcpus == b.vcpus && a.mem == b.mem }

  // The granted profile exists exactly when the request is grantable; otherwise it reads as zero.
  lemma GrantedIsDefined(box: Box, repo: Repo, o: seq<string>, o': seq<string>)
    requires SortedNames(box.profiles, o) && SortedNames(box.profiles, o')
    ensures Granted(box, repo, o, o') in box.profiles <==> Grantable(box, repo)
  {
    var name := Defined(box, Requested(box, repo));
    assert Rank(o, name) == -1 <==> name !in box.profiles;
    assert Rank(o', box.maxProfile) == -1 <==> box.maxProfile !in box.profiles;
    hide SortedNames, Requested;
  }

  // The granted profile has the lexicographic minimum of the requested size and the maximum: it never
  // exceeds the maximum, and its size depends neither on map order nor on how ties were sorted.
  lemma GrantedIsMinimum(box: Box, repo: Repo, o: seq<string>, o': seq<string>)
    requires Grantable(box, repo) && SortedNames(box.profiles, o) && SortedNames(box.profiles, o')
    ensures Granted(box, repo, o, o') in box.profiles
    ensures SameSize(box.profiles[Granted(box, repo, o, o')], GrantedSize(box, repo))
    ensures box.maxProfile != "" ==> !Smaller(Lookup(box.profiles, box.maxProfile), GrantedSize(box, repo))
  {
    GrantedIsDefined(box, repo, o, o');
    var name := Defined(box, Requested(box, repo));
    if box.maxProfile != "" {
      var asked, most := box.profiles[name], box.profiles[box.maxProfile];
      if Smaller(most, asked) {
        SmallerRanksLower(box.profiles, o', o, box.maxProfile, name);
      } else if Smaller(asked, most) {
        SmallerRanksLower(box.profiles, o, o', name, box.maxProfile);
      }
    }
    hide SortedNames, Requested;
  }

  // Sizes: without an override exactly the granted size, with one the override cut to [1, vCPUs] and
  // [512, memory]; so never below a bootable VM, never above the granted profile, and the same under
  // any two pairs of sorts.
  lemma SizesStayInProfile(box: Box, repo: Repo, task: Task, o: seq<string>, o': seq<string>)
    requires Grantable(box, repo) && Bootable(box) && SortedNames(box.profiles, o) && SortedNames(box.profiles, o')
    ensures var r, g := Resolve(box, repo, task, o, o'), GrantedSize(box, repo);
      && 1 <= r.vcpus <= g.vcpus && 512 <= r.mem <= g.mem
      && (task.vcpus == 0 ==> r.vcpus == g.vcpus) && (task.mem == 0 ==> r.mem == g.mem)
      && (1 <= task.vcpus <= g.vcpus ==> r.vcpus == task.vcpus) && (512 <= task.mem <= g.mem ==> r.mem == task.mem)
      && (task.vcpus < 0 ==> r.vcpus == 1) && (task.vcpus > g.vcpus ==> r.vcpus == g.vcpus)
      && (task.mem < 512 && task.mem != 0 ==> r.mem == 512) && (task.mem > g.mem ==> r.mem == g.mem)
  {
    GrantedIsMinimum(box, repo, o, o');
    assert Granted(box, repo, o, o') in box.profiles;
    hide Granted, GrantedSize, SortedNames, Grantable;
    hide ProfileWarnings, ListWarnings, OperatorOnly, ResolvePolicy;
  }

  // No override, whatever its size, exceeds the granted profile.
  ghost predicate Clamps(box: Box, repo: Repo, o: seq<string>, o': seq<string>) {
    var g := Lookup(box.profiles, Granted(box, repo, o, o'));
    forall task: Task :: var r := Resolve(box, repo, task, o, o'); r.vcpus <= g.vcpus && r.mem <= g.mem
  }

  // Overrides are clamped if and only if the granted profile is a bootable one, for any box at all: a
  // profile that reads as zero, or is smaller than the floor, bounds nothing.
  lemma ClampsExactly(box: Box, repo: Repo, o: seq<string>, o': seq<string>)
    ensures Clamps(box, repo, o, o') <==>
      var g := Lookup(box.profiles, Granted(box, repo, o, o')); g.vcpus >= 1 && g.mem >= 512
  {
    hide Granted, Lookup, ProfileWarnings, ListWarnings, OperatorOnly, ResolvePolicy, PolicyWarnings;
    var small := Task(1, 1, "");
    assert Clamps(box, repo, o, o') ==>
      var r, g := Resolve(box, repo, small, o, o'), Lookup(box.profiles, Granted(box, repo, o, o'));
      r.vcpus <= g.vcpus && r.mem <= g.mem;
  }

  // So on a box of bootable profiles they are clamped if and only if the request is grantable: a maximum
  // that is not defined loses the clamp, and so does a request and a default that are both not defined.
  lemma ClampsExactlyWhenGrantable(box: Box, repo: Repo, o: seq<string>, o': seq<string>)
    requires Bootable(box) && SortedNames(box.profiles, o) && SortedNames(box.profiles, o')
    ensures Clamps(box, repo, o, o') <==> Grantable(box, repo)
  {
    ClampsExactly(box, repo, o, o');
    GrantedIsDefined(box, repo, o, o');
    hide Clamps, Granted, Grantable, SortedNames;
  }

  // What then happens: every override that is not below the floor goes through as it is, however large.
  lemma UngrantablePassesOverrides(box: Box, repo: Repo, task: Task, o: seq<string>, o': seq<string>)
    requires !Grantable(box, repo) && SortedNames(box.profiles, o) && SortedNames(box.profiles, o')
    requires task.vcpus >= 1 && task.mem >= 512
    ensures var r := Resolve(box, repo, task, o, o'); r.vcpus == task.vcpus && r.mem == task.mem
  {
    GrantedIsDefined(box, repo, o, o');
    hide Granted, Grantable, SortedNames, ProfileWarnings, ListWarnings, PolicyWarnings, ResolvePolicy;
  }

  // Model and agent are allow-listed or the box default; a repository's keep_alive never outlives a
  // positive hard TTL; the cost ceiling and the TTL are always the operator's.
  lemma GuardrailsHold(box: Box, repo: Repo, task: Task, o: seq<string>, o': seq<string>)
    ensures var r := Resolve(box, repo, task, o, o');
      && (Allowed(box.modelsAllowed, r.model) || r.model == box.model)
      && (Allowed(box.agentsAllowed, r.agent) || r.agent == box.agent)
      && (repo.keepAlive.Some? && box.hardTTL > 0 ==> r.policy.keepAlive <= box.hardTTL)
      && r.policy.costCeiling == box.costCeiling && r.policy.hardTTL == box.hardTTL
  {
    hide Granted, ProfileWarnings, ListWarnings, PolicyWarnings, RequestedModel, RequestedAgent;
  }

  // Nothing is warned about exactly when the requested profile exists and does not exceed the maximum,
  // model, agent and keep_alive are the requested ones, and the repository asked for nothing
  // operator-only. Of the per-task sizes a silent run says nothing: see SilentCutsExactly.
  lemma SilentMeansGranted(box: Box, repo: Repo, task: Task, o: seq<string>, o': seq<string>)
    ensures var r := Resolve(box, repo, task, o, o');
      r.warnings == [] <==>
        && Requested(box, repo) in box.profiles && !Exceeds(box, Requested(box, repo), o, o')
        && Allowed(box.modelsAllowed, RequestedModel(box, repo, task))
        && Allowed(box.agentsAllowed, RequestedAgent(box, repo))
        && (repo.keepAlive.Some? && box.hardTTL > 0 ==> repo.keepAlive.value <= box.hardTTL)
        && repo.costCeiling.None? && repo.concurrency.None? && !repo.egress && !repo.secrets
    ensures var r := Resolve(box, repo, task, o, o');
      r.warnings == [] ==>
        && Granted(box, repo, o, o') == Requested(box, repo)
        && r.model == RequestedModel(box, repo, task) && r.agent == RequestedAgent(box, repo)
        && r.policy.keepAlive == OrElse(repo.keepAlive, box.keepAlive)
  {
    hide Requested, RequestedModel, RequestedAgent, Exceeds, Allowed;
    var a, b, c, d :=
      ProfileWarnings(box, repo, o, o'), ListWarnings(box, repo, task), PolicyWarnings(box, repo), OperatorOnly(repo);
    assert |a + b + c + d| == |a| + |b| + |c| + |d|;
  }

  // A size asked for per task is not the size resolved.
  predicate Cut(task: Task, r: Resolved) {
    (task.vcpus != 0 && r.vcpus != task.vcpus) || (task.mem != 0 && r.mem != task.mem)
  }

  // An override is outside what a profile of this size lets through; a size that is not positive bounds nothing.
  predicate OutOfRange(v: int, lo: int, hi: int) {
    v != 0 && (v < lo || (0 < hi < v))
  }

  // Whatever is warned about, a per-task size is cut if and only if it is below the floor or above the
  // granted profile; and a silent run cuts one exactly when it is below the floor or above the profile
  // that was asked for. So silence does not mean that everything was granted.
  lemma SilentCutsExactly(box: Box, repo: Repo, task: Task, o: seq<string>, o': seq<string>)
    ensures var r, g := Resolve(box, repo, task, o, o'), Lookup(box.profiles, Granted(box, repo, o, o'));
      Cut(task, r) <==> OutOfRange(task.vcpus, 1, g.vcpus) || OutOfRange(task.mem, 512, g.mem)
    ensures var r, g := Resolve(box, repo, task, o, o'), Lookup(box.profiles, Requested(box, repo));
      r.warnings == [] ==> (Cut(task, r) <==> OutOfRange(task.vcpus, 1, g.vcpus) || OutOfRange(task.mem, 512, g.mem))
  {
    SilentMeansGranted(box, repo, task, o, o');
    hide Granted, Requested, RequestedModel, RequestedAgent, Exceeds, Allowed, Lookup;
    hide ProfileWarnings, ListWarnings, PolicyWarnings, OperatorOnly, ResolvePolicy;
  }

  const PLAIN_REPO: Repo := Repo("", "", "", None, None, "", None, None, false, false)

  function PlainBox(profiles: map<string, Profile>, resources: string, maxProfile: string): Box {
    Box("", "", resources, 0, 0, false, "", profiles, maxProfile, 0.0, 0, [], [])
  }

  // It happens: eight vCPUs asked of a profile with two give two, without a word.
  lemma SilentCut()
    ensures var profiles := map["small" := Profile(2, 4096, 0)];
      var r := Resolve(PlainBox(profiles, "small", ""), PLAIN_REPO, Task(8, 0, ""), ["small"], ["small"]);
      SortedNames(profiles, ["small"]) && r.warnings == [] && r.vcpus == 2
  {
    var box := PlainBox(map["small" := Profile(2, 4096, 0)], "small", "");
    assert Text.Trim("") == "";
    assert Text.TrimLeft("small") == "small" && Text.TrimRight("small") == "small";
    assert ["", "small"][1..] == ["small"];
    assert Requested(box, PLAIN_REPO) == "small";
    SilentMeansGranted(box, PLAIN_REPO, Task(8, 0, ""), ["small"], ["small"]);
  }

  // ---- when the profile warning depends on how ties were sorted ----

  // For profiles of different size the warning is exact under any two sorts.
  lemma ExceedsIsExactUpToTies(box: Box, name: string, o: seq<string>, o': seq<string>)
    requires SortedNames(box.profiles, o) && SortedNames(box.profiles, o')
    requires name in box.profiles && box.maxProfile != "" && box.maxProfile in box.profiles
    requires !SameSize(box.profiles[name], box.profiles[box.maxProfile])
    ensures Exceeds(box, name, o, o') <==> Smaller(box.profiles[box.maxProfile], box.profiles[name])
  {
    if Smaller(box.profiles[box.maxProfile], box.profiles[name]) {
      SmallerRanksLower(box.profiles, o', o, box.maxProfile, name);
    } else {
      SmallerRanksLower(box.profiles, o, o', name, box.maxProfile);
    }
  }

  // The map has a sort: sorting always ends with one.
  lemma {:induction false} SomeSort(profiles: map<string, Profile>) returns (o: seq<string>)
    ensures SortedNames(profiles, o)
    decreases |profiles|
  {
    if profiles == map[] {
      o := [];
    } else {
      var top := Largest(profiles);
      var rest := SomeSort(profiles - {top});
      LargestLast(profiles, rest, top);
      o := rest + [top];
    }
  }

  lemma LargestLast(profiles: map<string, Profile>, rest: seq<string>, top: string)
    requires top in profiles && SortedNames(profiles - {top}, rest)
    requires forall n :: n in profiles ==> !Smaller(profiles[top], profiles[n])
    ensures SortedNames(profiles, rest + [top])
  {
    hide Smaller;
    var o := rest + [top];
    assert forall n :: n in rest <==> n in profiles - {top};
    assert forall n :: n in o <==> n in rest || n == top;
    assert forall i :: 0 <= i < |rest| ==> o[i] in rest;
  }

  lemma {:induction false} Largest(profiles: map<string, Profile>) returns (top: string)
    requires profiles != map[]
    ensures top in profiles && forall n :: n in profiles ==> !Smaller(profiles[top], profiles[n])
    decreases |profiles|
  {
    top :| top in profiles;
    var rest := profiles - {top};
    assert forall n :: n in profiles && n != top ==> n in rest;
    if rest != map[] {
      var other := Largest(rest);
      if Smaller(profiles[top], profiles[other]) { top := other; }
    }
  }

  // Of two profiles of one size either can come first.
  lemma TwoOrders(profiles: map<string, Profile>, a: string, b: string) returns (o: seq<string>, o': seq<string>)
    requires a in profiles && b in profiles && a != b && SameSize(profiles[a], profiles[b])
    ensures SortedNames(profiles, o) && SortedNames(profiles, o')
    ensures Rank(o, a) == Rank(o', b) < Rank(o, b) == Rank(o', a)
  {
    o := SomeSort(profiles);
    var i, j := Rank(o, a), Rank(o, b);
    o' := o[i := b][j := a];
    SwapSorts(profiles, o, i, j);
    if j < i { o, o' := o', o; }
  }

  lemma SwapSorts(profiles: map<string, Profile>, o: seq<string>, i: nat, j: nat)
    requires SortedNames(profiles, o) && i < |o| && j < |o| && SameSize(profiles[o[i]], profiles[o[j]])
    ensures SortedNames(profiles, o[i := o[j]][j := o[i]])
  {
    var p := o[i := o[j]][j := o[i]];
    forall n ensures n in p <==> n in o {
      if n in o {
        var k :| 0 <= k < |o| && o[k] == n;
        assert p[if k == i then j else if k == j then i else k] == n;
      }
    }
  }

  // The only profile of its size has one place in every sort.
  lemma LonelyRank(profiles: map<string, Profile>, o: seq<string>, o': seq<string>, a: string)
    requires SortedNames(profiles, o) && SortedNames(profiles, o') && a in profiles
    requires forall n :: n in profiles && n != a ==> !SameSize(profiles[n], profiles[a])
    ensures Rank(o, a) <= Rank(o', a)
  {
    var i, j := Rank(o, a), Rank(o', a);
    var low, high := o[..i], o'[..j];
    forall x | x in Elements(low) ensures x in Elements(high) {
      var k :| 0 <= k < i && o[k] == x;
      assert !Smaller(profiles[a], profiles[x]);
      assert x in profiles && x in o';
      var m :| 0 <= m < |o'| && o'[m] == x;
      assert m < j;
      assert high[m] == x;
    }
    ElementCount(low);
    ElementCount(high);
    SubsetSize(Elements(low), Elements(high));
  }

  ghost predicate ExceedsUnder(box: Box, name: string, o: seq<string>, o': seq<string>) {
    SortedNames(box.profiles, o) && SortedNames(box.profiles, o') && Exceeds(box, name, o, o')
  }

  // Another profile has the size of the maximum.
  predicate HasTwin(box: Box) {
    box.maxProfile in box.profiles &&
    exists n :: n in box.profiles && n != box.maxProfile && SameSize(box.profiles[n], box.profiles[box.maxProfile])
  }

  // A profile is larger than the maximum, or the maximum does not exist.
  predicate Larger(box: Box, name: string) {
    && box.maxProfile != "" && name in box.profiles
    && (box.maxProfile in box.profiles ==> Smaller(box.profiles[box.maxProfile], box.profiles[name]))
  }

  predicate Ties(box: Box, name: string) {
    && box.maxProfile != "" && name in box.profiles && box.maxProfile in box.profiles
    && SameSize(box.profiles[name], box.profiles[box.maxProfile])
  }

  // For any box and name: a profile is warned about under every two sorts if and only if it is larger
  // than the maximum.
  lemma AlwaysExceedsExactly(box: Box, name: string)
    ensures Larger(box, name) <==>
      forall o, o' :: SortedNames(box.profiles, o) && SortedNames(box.profiles, o') ==> Exceeds(box, name, o, o')
  {
    var o := SomeSort(box.profiles);
    var p := o;
    if Ties(box, name) && name != box.maxProfile {
      o, p := TwoOrders(box.profiles, name, box.maxProfile);
      assert !Exceeds(box, name, o, o);
    }
    forall q, q' | SortedNames(box.profiles, q) && SortedNames(box.profiles, q') && !Ties(box, name)
      ensures Exceeds(box, name, q, q') <==> Larger(box, name)
    {
      ExceedsUnlessTied(box, name, q, q');
    }
    hide SortedNames, Smaller;
  }

  lemma ExceedsUnlessTied(box: Box, name: string, o: seq<string>, o': seq<string>)
    requires SortedNames(box.profiles, o) && SortedNames(box.profiles, o') && !Ties(box, name)
    ensures Exceeds(box, name, o, o') <==> Larger(box, name)
  {
    if box.maxProfile != "" && name in box.profiles && box.maxProfile in box.profiles {
      ExceedsIsExactUpToTies(box, name, o, o');
    }
  }

  // It is warned about under some two sorts if and only if it is larger than the maximum, or as large
  // while the maximum is not the only profile of its size. So the maximum itself, asked for by name, may
  // be said to exceed the maximum, exactly when it has a twin.
  lemma SometimesExceedsExactly(box: Box, name: string)
    ensures (exists o, o' :: ExceedsUnder(box, name, o, o')) <==> Larger(box, name) || (Ties(box, name) && HasTwin(box))
  {
    var s := SomeSort(box.profiles);
    forall o, o' | SortedNames(box.profiles, o) && SortedNames(box.profiles, o') && !Ties(box, name)
      ensures Exceeds(box, name, o, o') <==> Larger(box, name)
    {
      ExceedsUnlessTied(box, name, o, o');
    }
    if !Ties(box, name) {
      assert ExceedsUnder(box, name, s, s) <==> Larger(box, name);
    } else if HasTwin(box) {
      TwinExceeds(box, name);
    } else {
      forall o, o' ensures !ExceedsUnder(box, name, o, o') {
        if ExceedsUnder(box, name, o, o') { LonelyRank(box.profiles, o, o', name); }
      }
    }
    hide SortedNames, Smaller;
  }

  lemma TwinExceeds(box: Box, name: string)
    requires Ties(box, name) && HasTwin(box)
    ensures exists o, o' :: ExceedsUnder(box, name, o, o')
  {
    var most := box.maxProfile;
    var n :| n in box.profiles && n != most && SameSize(box.profiles[n], box.profiles[most]);
    var o, o' := TwoOrders(box.profiles, most, if name == most then n else name);
    hide SortedNames, Smaller;
    if name == most {
      assert ExceedsUnder(box, name, o', o);
    } else {
      assert ExceedsUnder(box, name, o, o);
    }
  }

  // It happens: of two equal profiles one is the maximum and is asked for; sorted once each way, it is
  // said to exceed itself.
  lemma MaximumExceedsItself()
    ensures var profiles := map["a" := Profile(2, 4096, 0), "b" := Profile(2, 4096, 0)];
      var o, o' := ["b", "a"], ["a", "b"];
      && SortedNames(profiles, o) && SortedNames(profiles, o')
      && Resolve(PlainBox(profiles, "a", "a"), PLAIN_REPO, Task(0, 0, ""), o, o').warnings
         == [ProfileExceedsMax("a", "a")]
  {
    var profiles := map["a" := Profile(2, 4096, 0), "b" := Profile(2, 4096, 0)];
    var box, o, o' := PlainBox(profiles, "a", "a"), ["b", "a"], ["a", "b"];
    assert o[1] == "a" && o'[0] == "a" && o[0] == "b" && o'[1] == "b";
    assert Text.Trim("") == "";
    assert Text.TrimLeft("a") == "a" && Text.TrimRight("a") == "a";
    assert ["", "a"][1..] == ["a"];
    assert Requested(box, PLAIN_REPO) == "a";
    assert Rank(o, "a") == 1 && Rank(o', "a") == 0;
  }
}
