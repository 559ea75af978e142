/** Which source secret is copied under which name, and which secrets the watch reacts to. */
module CopyPlan {
  import opened Options
  import opened Kubernetes

  function TargetName(copy: SecretCopy): string {
    if copy.target.Some? && copy.target.value != "" then copy.target.value else copy.source
  }

  function CopiesFor(secrets: SecretsToCopy, site: Site): seq<SecretCopy> {
    if site.Platform? then secrets.toPlatform else secrets.toTarget
  }

  /** Source name to target name: pull secrets keep their name, configured entries are applied in order on top. */
  function Plan(pulls: seq<string>, copies: seq<SecretCopy>): map<string, string> {
    if copies == [] then map n | n in pulls :: n
    else Plan(pulls, copies[..|copies| - 1])[copies[|copies| - 1].source := TargetName(copies[|copies| - 1])]
  }

  /** The plan a configuration induces for one of the two clusters; without secretsToCopy nothing is copied. */
  function PlanFor(config: Config, service: Service, site: Site): map<string, string> {
    if config.secrets.Some? then Plan(service.pullSecrets, CopiesFor(config.secrets.value, site)) else map[]
  }

  predicate Configured(copies: seq<SecretCopy>, s: string) {
    exists i :: 0 <= i < |copies| && copies[i].source == s
  }

  /** Entry i is the last one configured for source s. */
  predicate LastFor(copies: seq<SecretCopy>, s: string, i: int) {
    && 0 <= i < |copies| && copies[i].source == s
    && forall j :: i < j < |copies| ==> copies[j].source != s
  }

  /**
  The entry asks for a copy under the name t: the name it gives, or, if it gives none or an empty one, the source's.
   */
  predicate GivesName(copy: SecretCopy, t: string) {
    match copy.target
    case Some(name) => if name == "" then t == copy.source else t == name
    case None => t == copy.source
  }

  /**
  Source s is to be copied as t: the last entry for s says so, or s is a pull secret without an entry and keeps its
  name.
   */
  ghost predicate Asked(pulls: seq<string>, copies: seq<SecretCopy>, s: string, t: string) {
    || (exists i :: LastFor(copies, s, i) && GivesName(copies[i], t))
    || (s in pulls && !Configured(copies, s) && t == s)
  }

  /** What the configuration asks for on one of the two clusters. */
  ghost predicate AskedFor(config: Config, service: Service, site: Site, s: string, t: string) {
    && config.secrets.Some?
    && match site
       case Platform => Asked(service.pullSecrets, config.secrets.value.toPlatform, s, t)
       case Target(_) => Asked(service.pullSecrets, config.secrets.value.toTarget, s, t)
  }

  method BuildPlan(pulls: seq<string>, copies: seq<SecretCopy>) returns (plan: map<string, string>)
    ensures plan == Plan(pulls, copies)
    ensures forall s, t :: s in plan && plan[s] == t <==> Asked(pulls, copies, s, t)
  {
    PlanIsAsked(pulls, copies);
    plan := map[];
    for i := 0 to |pulls|
      invariant plan == map n | n in pulls[..i] :: n
    {
      plan := plan[pulls[i] := pulls[i]];
    }
    assert pulls[..|pulls|] == pulls;
    for i := 0 to |copies|
      invariant plan == Plan(pulls, copies[..i])
    {
      var target := "";
      if copies[i].target.Some? && copies[i].target.value != "" {
        target := copies[i].target.value;
      } else {
        target := copies[i].source;
      }
      assert copies[..i + 1][..i] == copies[..i];
      plan := plan[copies[i].source := target];
    }
    assert copies[..|copies|] == copies;
  }

  /**
  The plan's meaning: the last entry for a source decides under which name it is copied, the one it gives unless that is
  missing or empty; other pull secrets keep their names.
   */
  lemma {:induction false} PlanMeaning(pulls: seq<string>, copies: seq<SecretCopy>, s: string)
    ensures s in Plan(pulls, copies) <==> s in pulls || Configured(copies, s)
    ensures forall i, t :: LastFor(copies, s, i) && copies[i].target == Some(t) && t != "" ==>
              Plan(pulls, copies)[s] == t
    ensures forall i :: LastFor(copies, s, i) && (copies[i].target.None? || copies[i].target.value == "") ==>
              Plan(pulls, copies)[s] == s
    ensures s in pulls && !Configured(copies, s) ==> Plan(pulls, copies)[s] == s
  {
    if copies == [] {
    } else {
      var n := |copies| - 1;
      var front := copies[..n];
      PlanMeaning(pulls, front, s);
      if copies[n].source != s {
        if i :| 0 <= i < |copies| && copies[i].source == s {
          assert front[i].source == s;
        }
        if i :| 0 <= i < |front| && front[i].source == s {
          assert copies[i].source == s;
        }
        forall i | LastFor(copies, s, i) ensures Plan(pulls, copies)[s] == TargetName(copies[i]) {
          assert forall j :: i < j < n ==> front[j] == copies[j];
          assert LastFor(front, s, i);
        }
      } else {
        assert forall i :: LastFor(copies, s, i) ==> i == n;
      }
    }
  }

  lemma {:induction false} OneIsLast(copies: seq<SecretCopy>, s: string) returns (i: nat)
    requires Configured(copies, s)
    ensures LastFor(copies, s, i)
  {
    var n := |copies| - 1;
    if copies[n].source == s {
      i := n;
    } else {
      var front := copies[..n];
      var k :| 0 <= k < |copies| && copies[k].source == s;
      assert front[k].source == s;
      i := OneIsLast(front, s);
      assert forall j :: i < j < n ==> front[j] == copies[j];
    }
  }

  /** The plan holds exactly what is asked for. */
  lemma PlanIsAsked(pulls: seq<string>, copies: seq<SecretCopy>)
    ensures forall s, t :: s in Plan(pulls, copies) && Plan(pulls, copies)[s] == t <==> Asked(pulls, copies, s, t)
  {
    forall s, t ensures s in Plan(pulls, copies) && Plan(pulls, copies)[s] == t <==> Asked(pulls, copies, s, t) {
      PlanMeaning(pulls, copies, s);
      if Configured(copies, s) { var i := OneIsLast(copies, s); }
    }
  }

  /** Each cluster gets what its own list asks for. */
  lemma PlansAreAsked(config: Config, service: Service, site: Site)
    ensures forall s, t ::
              s in PlanFor(config, service, site) && PlanFor(config, service, site)[s] == t <==>
                AskedFor(config, service, site, s, t)
  {
    if config.secrets.Some? {
      PlanIsAsked(service.pullSecrets, config.secrets.value.toPlatform);
      PlanIsAsked(service.pullSecrets, config.secrets.value.toTarget);
    }
    hide Plan, Asked;
  }

  /** A secret is watched if and only if an entry of one of the two lists copies it or it is a pull secret. */
  lemma ReferencedMeans(config: Config, service: Option<Service>, n: string)
    ensures n in Referenced(config, service) <==>
              || (config.secrets.Some? && exists copy :: copy in config.secrets.value.toPlatform && copy.source == n)
              || (config.secrets.Some? && exists copy :: copy in config.secrets.value.toTarget && copy.source == n)
              || (service.Some? && n in service.value.pullSecrets)
  {
  }

  /** The secrets whose changes are propagated. */
  function Referenced(config: Config, service: Option<Service>): set<string> {
    (if config.secrets.None? then {} else
       (set i | 0 <= i < |config.secrets.value.toPlatform| :: config.secrets.value.toPlatform[i].source)
       + (set i | 0 <= i < |config.secrets.value.toTarget| :: config.secrets.value.toTarget[i].source))
    + (if service.None? then {} else set n | n in service.value.pullSecrets)
  }

  method ExtractReferencedSecretNames(config: Config, service: Option<Service>) returns (names: set<string>)
    ensures names == Referenced(config, service)
  {
    names := {};
    if config.secrets.Some? {
      var platform, target := config.secrets.value.toPlatform, config.secrets.value.toTarget;
      for i := 0 to |platform|
        invariant names == set j | 0 <= j < i :: platform[j].source
      {
        names := names + {platform[i].source};
      }
      ghost var before := names;
      for i := 0 to |target|
        invariant names == before + set j | 0 <= j < i :: target[j].source
      {
        names := names + {target[i].source};
      }
    }
    ghost var configured := names;
    if service.Some? {
      var pulls := service.value.pullSecrets;
      for i := 0 to |pulls|
        invariant names == configured + set n | n in pulls[..i]
      {
        names := names + {pulls[i]};
      }
      assert pulls[..|pulls|] == pulls;
    }
  }

  /** Every source that a copy run reads is watched; with secretsToCopy set, exactly those are. */
  lemma WatchIndexAgrees(config: Config, service: Service, cluster: NamespacedName)
    ensures PlanFor(config, service, Platform).Keys + PlanFor(config, service, Target(cluster)).Keys
            <= Referenced(config, Some(service))
    ensures config.secrets.Some? ==>
              PlanFor(config, service, Platform).Keys + PlanFor(config, service, Target(cluster)).Keys
              == Referenced(config, Some(service))
  {
    if config.secrets.Some? {
      var platform, target := config.secrets.value.toPlatform, config.secrets.value.toTarget;
      forall s
        ensures s in Referenced(config, Some(service)) <==>
                s in PlanFor(config, service, Platform) || s in PlanFor(config, service, Target(cluster))
      {
        PlanMeaning(service.pullSecrets, platform, s);
        PlanMeaning(service.pullSecrets, target, s);
      }
    }
  }
}
