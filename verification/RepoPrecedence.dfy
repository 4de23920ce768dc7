/** Whose setting wins: a task's over the repository's over the box's, and what is warned about. */
module RepoPrecedence {
  import opened Protocol
  import opened RepoConfig
  import Text

  // ---- the first that says something ----

  // The first value with anything but white space in it; empty if and only if there is none.
  lemma {:induction false} FirstNonEmptyIs(vals: seq<string>)
    ensures FirstNonEmpty(vals) == "" <==> forall i :: 0 <= i < |vals| ==> Text.Blank(vals[i])
    ensures forall i :: 0 <= i < |vals| && !Text.Blank(vals[i]) && (forall j :: 0 <= j < i ==> Text.Blank(vals[j])) ==>
      FirstNonEmpty(vals) == vals[i]
  {
    if vals != [] {
      Text.TrimOfBlank(vals[0]);
      FirstNonEmptyIs(vals[1..]);
      hide Text.Trim, Text.IsSpace;
      assert forall i :: 0 < i < |vals| ==> vals[i] == vals[1..][i - 1];
    }
  }

  lemma FirstOfTwo(a: string, b: string)
    ensures FirstNonEmpty([a, b]) == if !Text.Blank(a) then a else if !Text.Blank(b) then b else ""
  {
    FirstNonEmptyIs([a, b]);
    hide FirstNonEmpty, Text.Blank;
    var v := [a, b];
    assert v[0] == a && v[1] == b;
  }

  lemma FirstOfThree(a: string, b: string, c: string)
    ensures FirstNonEmpty([a, b, c]) ==
      if !Text.Blank(a) then a else if !Text.Blank(b) then b else if !Text.Blank(c) then c else ""
  {
    FirstNonEmptyIs([a, b, c]);
    hide FirstNonEmpty, Text.Blank;
    var v := [a, b, c];
    assert v[0] == a && v[1] == b && v[2] == c;
  }

  predicate Listed(list: seq<string>, v: string) { |list| > 0 ==> exists i :: 0 <= i < |list| && list[i] == v }

  // ---- what is resolved ----

  // The task's model beats the repository's, which beats the box's; one that is not listed gives the
  // box's, even where the next in line is listed.
  lemma ModelPrecedence(box: Box, repo: Repo, task: Task, o: seq<string>, o': seq<string>)
    ensures var m := Resolve(box, repo, task, o, o').model;
      && (!Text.Blank(task.model) ==> m == if Listed(box.modelsAllowed, task.model) then task.model else box.model)
      && (Text.Blank(task.model) && !Text.Blank(repo.model) ==>
            m == if Listed(box.modelsAllowed, repo.model) then repo.model else box.model)
      && (Text.Blank(task.model) && Text.Blank(repo.model) && !Text.Blank(box.model) ==> m == box.model)
      && (Text.Blank(task.model) && Text.Blank(repo.model) && Text.Blank(box.model) ==> Text.Blank(m))
  {
    FirstOfThree(task.model, repo.model, box.model);
    assert Text.Blank("");
    hide FirstNonEmpty, Text.Blank, Granted, ProfileWarnings, ListWarnings, PolicyWarnings, OperatorOnly, ResolvePolicy;
  }

  // The repository's agent and instructions beat the box's.
  lemma AgentPrecedence(box: Box, repo: Repo, task: Task, o: seq<string>, o': seq<string>)
    ensures var r := Resolve(box, repo, task, o, o');
      && (!Text.Blank(repo.agent) ==>
            r.agent == if Listed(box.agentsAllowed, repo.agent) then repo.agent else box.agent)
      && (Text.Blank(repo.agent) && !Text.Blank(box.agent) ==> r.agent == box.agent)
      && (Text.Blank(repo.agent) && Text.Blank(box.agent) ==> Text.Blank(r.agent))
      && (!Text.Blank(repo.instructions) ==> r.instructions == repo.instructions)
      && (Text.Blank(repo.instructions) && !Text.Blank(box.instructions) ==> r.instructions == box.instructions)
      && (Text.Blank(repo.instructions) && Text.Blank(box.instructions) ==> r.instructions == "")
  {
    FirstOfTwo(repo.agent, box.agent);
    FirstOfTwo(repo.instructions, box.instructions);
    assert Text.Blank("");
    hide FirstNonEmpty, Text.Blank, Granted, ProfileWarnings, ListWarnings, PolicyWarnings, OperatorOnly, ResolvePolicy;
  }

  // The profile a task runs in, before any clamp by a maximum: the repository's if it asks for a defined
  // one, else the box's default; and one that is named "" if neither asks for any.
  function Chosen(box: Box, repo: Repo): string {
    if !Text.Blank(repo.resources) && repo.resources in box.profiles then repo.resources
    else if Text.Blank(repo.resources) && Text.Blank(box.resources) && "" in box.profiles then ""
    else box.resources
  }

  // Sizes: those of the chosen profile, or of the maximum if that is smaller, unless the task overrides.
  lemma SizePrecedence(box: Box, repo: Repo, task: Task, o: seq<string>, o': seq<string>)
    requires SortedNames(box.profiles, o) && SortedNames(box.profiles, o')
    requires Chosen(box, repo) in box.profiles && (box.maxProfile != "" ==> box.maxProfile in box.profiles)
    ensures var r, c := Resolve(box, repo, task, o, o'), box.profiles[Chosen(box, repo)];
      var over := box.maxProfile != "" && (var most := box.profiles[box.maxProfile];
        c.vcpus > most.vcpus || (c.vcpus == most.vcpus && c.mem > most.mem));
      var g := if over then box.profiles[box.maxProfile] else c;
      && (task.vcpus == 0 ==> r.vcpus == g.vcpus) && (task.mem == 0 ==> r.mem == g.mem)
      && (1 <= task.vcpus <= g.vcpus ==> r.vcpus == task.vcpus) && (512 <= task.mem <= g.mem ==> r.mem == task.mem)
  {
    AskedIsChosen(box, repo);
    GrantedIsMinimum(box, repo, o, o');
    hide Requested, Granted, SortedNames, ProfileWarnings, ListWarnings, PolicyWarnings, OperatorOnly, ResolvePolicy;
    hide RequestedModel, RequestedAgent, FirstNonEmpty;
  }

  lemma AskedIsChosen(box: Box, repo: Repo)
    ensures Defined(box, Requested(box, repo)) == Chosen(box, repo)
  {
    FirstOfTwo(repo.resources, box.resources);
    assert Text.Blank("");
    hide FirstNonEmpty, Text.Blank;
  }

  // Review rounds, CI fixing and keep_alive are the repository's where it sets them, keep_alive up to a
  // positive hard TTL; ceiling and TTL are the box's.
  lemma PolicyPrecedence(box: Box, repo: Repo, task: Task, o: seq<string>, o': seq<string>)
    ensures var p := Resolve(box, repo, task, o, o').policy;
      && (repo.review.Some? && repo.review.value.maxRounds.Some? ==> p.maxRounds == repo.review.value.maxRounds.value)
      && (repo.review.None? || repo.review.value.maxRounds.None? ==> p.maxRounds == box.maxRounds)
      && (repo.review.Some? && repo.review.value.autoFixCI.Some? ==> p.autoFixCI == repo.review.value.autoFixCI.value)
      && (repo.review.None? || repo.review.value.autoFixCI.None? ==> p.autoFixCI == box.autoFixCI)
      && (repo.keepAlive.None? ==> p.keepAlive == box.keepAlive)
      && (repo.keepAlive.Some? && (box.hardTTL <= 0 || repo.keepAlive.value <= box.hardTTL) ==>
            p.keepAlive == repo.keepAlive.value)
      && (repo.keepAlive.Some? && 0 < box.hardTTL < repo.keepAlive.value ==> p.keepAlive == box.hardTTL)
      && p.costCeiling == box.costCeiling && p.hardTTL == box.hardTTL
  {
    hide FirstNonEmpty, Granted, ProfileWarnings, ListWarnings, PolicyWarnings, OperatorOnly;
  }

  // ---- what is warned about ----

  // Each warning is given exactly when its adjustment is made, and names what was asked for and what is
  // used instead.
  lemma WarnsExactly(box: Box, repo: Repo, task: Task, o: seq<string>, o': seq<string>, w: Warning)
    ensures var r := Resolve(box, repo, task, o, o');
      var profile, model, agent :=
        FirstNonEmpty([repo.resources, box.resources]), FirstNonEmpty([task.model, repo.model, box.model]),
        FirstNonEmpty([repo.agent, box.agent]);
      var used := if profile in box.profiles then profile else box.resources;
      w in r.warnings <==>
        match w
        case UndefinedProfile(name, using) => name == profile && using == box.resources && profile !in box.profiles
        case ProfileExceedsMax(name, using) => name == used && using == box.maxProfile && Exceeds(box, used, o, o')
        case ModelNotAllowed(name, using) =>
          name == model && using == r.model == box.model && !Listed(box.modelsAllowed, model)
        case AgentNotAllowed(name, using) =>
          name == agent && using == r.agent == box.agent && !Listed(box.agentsAllowed, agent)
        case KeepAliveClamped(asked, ttl) =>
          repo.keepAlive == Some(asked) && ttl == box.hardTTL && 0 < ttl < asked && r.policy.keepAlive == ttl
        case CostCeilingIgnored => repo.costCeiling.Some?
        case ConcurrencyIgnored => repo.concurrency.Some?
        case EgressIgnored => repo.egress
        case SecretsIgnored => repo.secrets
  {
    hide FirstNonEmpty, Exceeds;
    var a, b, c, d :=
      ProfileWarnings(box, repo, o, o'), ListWarnings(box, repo, task), PolicyWarnings(box, repo), OperatorOnly(repo);
    assert w in a + b + c + d <==> w in a || w in b || w in c || w in d;
    hide Granted;
  }
}
