/** Resolving a plan's groups as the program does it: reference after reference, noting who claims what. */
module GatheringRuns {
  import opened Basics
  import opened Registry
  import opened Resolution
  import opened Merge
  import opened Fold

  /** One group's members and single versions, in the order its references list them. */
  method GatherGroup(r: Registry, g: Group, start: Gathered) returns (gathered: Result<Gathered, PlanError>)
    ensures gathered == GatherRefs(r, g, start, g.refs)
  {
    var claimed, picks, members, picked := start.claimed, start.picks, start.members, start.picked;
    for j := 0 to |g.refs|
      invariant GatherRefs(r, g, Gathered(claimed, picks, members, picked), g.refs[j..]) == GatherRefs(r, g, start, g.refs)
    {
      assert g.refs[j..][0] == g.refs[j] && g.refs[j..][1..] == g.refs[j + 1..];
      var found := Locate(r, RefAddress(g.project, g.refs[j]));
      match found {
        case Err(_) =>
        case Ok(Place(owner, x, k)) =>
          if owner.id == g.project {
            if k > 0 {
              var version := VersionAt(g.project, x.number, k);
              if version in picks {
                return Err(VersionListedTwice);
              }
              picks := picks[version := g.title];
              picked := picked + [Pick(x, k)];
            } else {
              var artifact := ArtifactAt(g.project, x.number);
              if artifact !in claimed {
                claimed := claimed[artifact := g.title];
              }
              assert claimed[artifact] == g.title ==> claimed == claimed[artifact := g.title];
              if claimed[artifact] == g.title && x !in members {
                members := members + [x];
              }
            }
          }
      }
    }
    gathered := Ok(Gathered(claimed, picks, members, picked));
  }

  /** The folds a plan asks for. */
  method GatherFolds(r: Registry, groups: seq<Group>) returns (folds: Result<seq<Fold>, PlanError>)
    ensures folds == Folds(r, groups)
  {
    var state, found := Gathered(map[], map[], [], []), [];
    for i := 0 to |groups|
      invariant GatherGroups(r, state, found, groups[i..]) == Folds(r, groups)
    {
      hide GatherRefs;
      var g := groups[i];
      assert groups[i..][0] == g && groups[i..][1..] == groups[i + 1..];
      if FindProject(r.projects, g.project).Some? {
        var gathered := GatherGroup(r, g, state.(members := [], picked := []));
        if gathered.Err? {
          return Err(gathered.error);
        }
        state := gathered.value;
        if state.picked != [] && state.members == [] {
          return Err(VersionsWithoutArtifact);
        }
        assert found + [] == found;
        if state.members != [] {
          found := found + [Fold(g.project, g.title, ByNumber(state.members), state.picked)];
        }
      }
    }
    folds := Ok(found);
  }
}
