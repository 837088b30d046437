/**
 * The diff engine: from the Jira projects, the autolinks the repository
 * already has and the Jira site URL, the create/update/delete operations
 * that bring the autolinks in line with the projects.
 */
module Plan {
  import opened Types
  import opened Strings

  datatype AutolinkOp =
    | Create(keyPrefix: string, urlTemplate: string)
    | Update(autolinkId: int, keyPrefix: string, urlTemplate: string)
    | Delete(autolinkId: int, keyPrefix: string)

  /** The `kind` tag of an operation. */
  function Kind(op: AutolinkOp): string {
    match op
    case Create(_, _) => "create"
    case Update(_, _, _) => "update"
    case Delete(_, _) => "delete"
  }

  datatype Metrics = Metrics(projectsSynced: nat, operationsPlanned: nat)

  datatype PlanResult = PlanResult(operations: seq<AutolinkOp>, metrics: Metrics)

  /**
   * This file's own normalisation, `url.toLowerCase().replace(/\/$/, '')`:
   * it lower-cases and then removes at most ONE trailing slash.
   */
  function NormalizeUrl(url: string): (r: string)
    ensures EndsWith(Lower(url), "/") ==> r + "/" == Lower(url)
    ensures !EndsWith(Lower(url), "/") ==> r == Lower(url)
  {
    var l := Lower(url);
    if l != [] && l[|l| - 1] == '/' then l[..|l| - 1] else l
  }

  predicate UrlsEqual(a: string, b: string) {
    NormalizeUrl(a) == NormalizeUrl(b)
  }

  /**
   * The ownership test: an autolink counts as created by this action when its
   * prefix ends with '-' and its normalised template lies under the site's
   * `/browse/` path.
   */
  predicate IsJiraAutolink(autolink: GithubAutolink, jiraUrl: string) {
    && EndsWith(autolink.keyPrefix, "-")
    && StartsWith(NormalizeUrl(autolink.urlTemplate), NormalizeUrl(jiraUrl) + "/browse/")
  }

  /** The prefix and the template the action wants for a project. */
  function KeyPrefix(project: JiraProject): string {
    project.key + "-"
  }

  function UrlTemplate(jiraUrl: string, project: JiraProject): string {
    jiraUrl + "/browse/" + project.key + "-<num>"
  }

  /**
   * The `existingMap` built by the first loop: `Map.set` for each autolink in
   * turn, so the last autolink with a given prefix is the one kept.
   */
  function Index(autolinks: seq<GithubAutolink>): map<string, GithubAutolink> {
    if autolinks == [] then map[]
    else
      var last := autolinks[|autolinks| - 1];
      Index(autolinks[..|autolinks| - 1])[last.keyPrefix := last]
  }

  /**
   * The order in which a JavaScript `Map` yields its keys: each prefix at the
   * position where it was first set.
   */
  function KeyOrder(autolinks: seq<GithubAutolink>): seq<string> {
    if autolinks == [] then []
    else
      var order := KeyOrder(autolinks[..|autolinks| - 1]);
      var prefix := autolinks[|autolinks| - 1].keyPrefix;
      if prefix in order then order else order + [prefix]
  }

  /** The `desiredPrefixes` set filled by the second loop. */
  function DesiredPrefixes(projects: seq<JiraProject>): set<string> {
    if projects == [] then {}
    else DesiredPrefixes(projects[..|projects| - 1]) + {KeyPrefix(projects[|projects| - 1])}
  }

  /** What the second loop pushes for one project: a create, an update, or nothing. */
  function ProjectOp(project: JiraProject, existing: map<string, GithubAutolink>, jiraUrl: string): seq<AutolinkOp> {
    var keyPrefix := KeyPrefix(project);
    var urlTemplate := UrlTemplate(jiraUrl, project);
    if keyPrefix !in existing then [Create(keyPrefix, urlTemplate)]
    else if !UrlsEqual(existing[keyPrefix].urlTemplate, urlTemplate) then
      [Update(existing[keyPrefix].id, keyPrefix, urlTemplate)]
    else []
  }

  function ProjectOps(projects: seq<JiraProject>, existing: map<string, GithubAutolink>, jiraUrl: string): seq<AutolinkOp> {
    if projects == [] then []
    else ProjectOps(projects[..|projects| - 1], existing, jiraUrl) + ProjectOp(projects[|projects| - 1], existing, jiraUrl)
  }

  /** What the third loop pushes for the prefixes in `keys`, in that order. */
  function DeletionOps(keys: seq<string>, existing: map<string, GithubAutolink>, desired: set<string>, jiraUrl: string): seq<AutolinkOp> {
    if keys == [] then []
    else
      var keyPrefix := keys[|keys| - 1];
      DeletionOps(keys[..|keys| - 1], existing, desired, jiraUrl)
      + if keyPrefix !in desired && keyPrefix in existing && IsJiraAutolink(existing[keyPrefix], jiraUrl)
        then [Delete(existing[keyPrefix].id, keyPrefix)]
        else []
  }

  /** The operation list of a plan: creates and updates in project order, then deletes. */
  function PlanOperations(projects: seq<JiraProject>, autolinks: seq<GithubAutolink>, jiraUrl: string): seq<AutolinkOp> {
    ProjectOps(projects, Index(autolinks), jiraUrl)
    + DeletionOps(KeyOrder(autolinks), Index(autolinks), DesiredPrefixes(projects), jiraUrl)
  }

  /** The prefixes in the key order are exactly the keys of the index. */
  lemma {:induction false} KeyOrderMatchesIndex(autolinks: seq<GithubAutolink>)
    ensures forall k :: k in KeyOrder(autolinks) <==> k in Index(autolinks)
  {
    if autolinks != [] {
      KeyOrderMatchesIndex(autolinks[..|autolinks| - 1]);
    }
  }

  lemma IndexStep(autolinks: seq<GithubAutolink>, i: nat)
    requires i < |autolinks|
    ensures Index(autolinks[..i + 1]) == Index(autolinks[..i])[autolinks[i].keyPrefix := autolinks[i]]
    ensures KeyOrder(autolinks[..i + 1])
         == if autolinks[i].keyPrefix in KeyOrder(autolinks[..i]) then KeyOrder(autolinks[..i])
            else KeyOrder(autolinks[..i]) + [autolinks[i].keyPrefix]
  {
    assert autolinks[..i + 1][..i] == autolinks[..i];
  }

  lemma ProjectStep(projects: seq<JiraProject>, i: nat, existing: map<string, GithubAutolink>, jiraUrl: string)
    requires i < |projects|
    ensures ProjectOps(projects[..i + 1], existing, jiraUrl) == ProjectOps(projects[..i], existing, jiraUrl) + ProjectOp(projects[i], existing, jiraUrl)
    ensures DesiredPrefixes(projects[..i + 1]) == DesiredPrefixes(projects[..i]) + {KeyPrefix(projects[i])}
  {
    assert projects[..i + 1][..i] == projects[..i];
  }

  lemma DeletionStep(keys: seq<string>, j: nat, existing: map<string, GithubAutolink>, desired: set<string>, jiraUrl: string)
    requires j < |keys|
    ensures DeletionOps(keys[..j + 1], existing, desired, jiraUrl)
         == DeletionOps(keys[..j], existing, desired, jiraUrl)
            + if keys[j] !in desired && keys[j] in existing && IsJiraAutolink(existing[keys[j]], jiraUrl)
              then [Delete(existing[keys[j]].id, keys[j])]
              else []
  {
    assert keys[..j + 1][..j] == keys[..j];
  }

  /**
   * The third loop of `buildAutolinkPlan`, over the map in its key order: a
   * delete for every prefix no project wants whose autolink passes the
   * ownership test.
   */
  method PlanObsoleteDeletions(mapOrder: seq<string>, existingMap: map<string, GithubAutolink>, desiredPrefixes: set<string>, jiraUrl: string)
    returns (deletions: seq<AutolinkOp>)
    requires forall k :: k in mapOrder ==> k in existingMap
    ensures deletions == DeletionOps(mapOrder, existingMap, desiredPrefixes, jiraUrl)
  {
    deletions := [];
    for j := 0 to |mapOrder|
      invariant deletions == DeletionOps(mapOrder[..j], existingMap, desiredPrefixes, jiraUrl)
    {
      var keyPrefix := mapOrder[j];
      var autolink := existingMap[keyPrefix];
      DeletionStep(mapOrder, j, existingMap, desiredPrefixes, jiraUrl);
      if keyPrefix !in desiredPrefixes && IsJiraAutolink(autolink, jiraUrl) {
        deletions := deletions + [Delete(autolink.id, keyPrefix)];
      }
    }
    assert mapOrder[..|mapOrder|] == mapOrder;
  }

  method BuildAutolinkPlan(jiraProjects: seq<JiraProject>, existingAutolinks: seq<GithubAutolink>, jiraUrl: string)
    returns (plan: PlanResult)
    ensures plan.operations == PlanOperations(jiraProjects, existingAutolinks, jiraUrl)
    ensures plan.metrics.projectsSynced == |jiraProjects|
    ensures plan.metrics.operationsPlanned == |plan.operations|
  {
    var existingMap: map<string, GithubAutolink> := map[];
    var mapOrder: seq<string> := [];
    for i := 0 to |existingAutolinks|
      invariant existingMap == Index(existingAutolinks[..i])
      invariant mapOrder == KeyOrder(existingAutolinks[..i])
    {
      var autolink := existingAutolinks[i];
      IndexStep(existingAutolinks, i);
      KeyOrderMatchesIndex(existingAutolinks[..i]);
      if autolink.keyPrefix !in existingMap {
        mapOrder := mapOrder + [autolink.keyPrefix];
      }
      existingMap := existingMap[autolink.keyPrefix := autolink];
    }
    assert existingAutolinks[..|existingAutolinks|] == existingAutolinks;
    KeyOrderMatchesIndex(existingAutolinks);

    var operations: seq<AutolinkOp> := [];
    var desiredPrefixes: set<string> := {};
    for i := 0 to |jiraProjects|
      invariant operations == ProjectOps(jiraProjects[..i], existingMap, jiraUrl)
      invariant desiredPrefixes == DesiredPrefixes(jiraProjects[..i])
    {
      var project := jiraProjects[i];
      ProjectStep(jiraProjects, i, existingMap, jiraUrl);
      var keyPrefix := project.key + "-";
      var urlTemplate := jiraUrl + "/browse/" + project.key + "-<num>";
      desiredPrefixes := desiredPrefixes + {keyPrefix};
      if keyPrefix !in existingMap {
        operations := operations + [Create(keyPrefix, urlTemplate)];
      } else if !UrlsEqual(existingMap[keyPrefix].urlTemplate, urlTemplate) {
        operations := operations + [Update(existingMap[keyPrefix].id, keyPrefix, urlTemplate)];
      }
    }
    assert jiraProjects[..|jiraProjects|] == jiraProjects;

    var deletions := PlanObsoleteDeletions(mapOrder, existingMap, desiredPrefixes, jiraUrl);
    operations := operations + deletions;

    plan := PlanResult(operations, Metrics(|jiraProjects|, |operations|));
  }
}
