/**
 * What the operation list of a plan contains, stated about the inputs of
 * `buildAutolinkPlan`: one operation per wanted prefix of the right kind,
 * deletes only of owned autolinks, creates and updates before deletes, and
 * an empty plan once the repository has converged.
 */
module PlanProperties {
  import opened Types
  import opened Strings
  import opened Plan
  import Url

  /** The operations of `ops` that concern prefix `keyPrefix`, in order. */
  function OpsFor(ops: seq<AutolinkOp>, keyPrefix: string): seq<AutolinkOp> {
    if ops == [] then []
    else OpsFor(ops[..|ops| - 1], keyPrefix) + if ops[|ops| - 1].keyPrefix == keyPrefix then [ops[|ops| - 1]] else []
  }

  /** `autolinks[j]` is the last autolink with its prefix, the one a `Map.set` loop keeps. */
  predicate IsLastWithPrefix(autolinks: seq<GithubAutolink>, j: int) {
    && 0 <= j < |autolinks|
    && forall k | j < k < |autolinks| :: autolinks[k].keyPrefix != autolinks[j].keyPrefix
  }

  /** No two operations of `ops` share a prefix. */
  predicate DistinctPrefixes(ops: seq<AutolinkOp>) {
    forall a, b | 0 <= a < b < |ops| :: ops[a].keyPrefix != ops[b].keyPrefix
  }

  /** No two projects share a key. */
  predicate DistinctKeys(projects: seq<JiraProject>) {
    forall a, b | 0 <= a < b < |projects| :: projects[a].key != projects[b].key
  }

  /** No project asks for `keyPrefix`. */
  predicate Undesired(projects: seq<JiraProject>, keyPrefix: string) {
    forall p | p in projects :: p.key + "-" != keyPrefix
  }

  // ---------------------------------------------------------------------
  // The map and the set the engine builds

  lemma {:induction false} OpsForConcat(a: seq<AutolinkOp>, b: seq<AutolinkOp>, keyPrefix: string)
    ensures OpsFor(a + b, keyPrefix) == OpsFor(a, keyPrefix) + OpsFor(b, keyPrefix)
  {
    if b != [] {
      assert (a + b)[..|a + b| - 1] == a + b[..|b| - 1];
      OpsForConcat(a, b[..|b| - 1], keyPrefix);
    } else {
      assert a + b == a;
    }
  }

  /** The index holds a prefix exactly when some autolink has it... */
  lemma {:induction false} IndexDomain(autolinks: seq<GithubAutolink>, keyPrefix: string)
    ensures keyPrefix in Index(autolinks) <==> exists j | 0 <= j < |autolinks| :: autolinks[j].keyPrefix == keyPrefix
  {
    if autolinks != [] {
      var n := |autolinks| - 1;
      var init := autolinks[..n];
      IndexDomain(init, keyPrefix);
      assert forall j | 0 <= j < n :: autolinks[j] == init[j];
    }
  }

  /** ...and then it holds the last such autolink. */
  lemma {:induction false} IndexLastWins(autolinks: seq<GithubAutolink>, keyPrefix: string)
    requires keyPrefix in Index(autolinks)
    ensures exists j | IsLastWithPrefix(autolinks, j) :: autolinks[j] == Index(autolinks)[keyPrefix] && autolinks[j].keyPrefix == keyPrefix
  {
    var n := |autolinks| - 1;
    var init := autolinks[..n];
    if autolinks[n].keyPrefix == keyPrefix {
      assert IsLastWithPrefix(autolinks, n);
    } else {
      IndexLastWins(init, keyPrefix);
      var j :| IsLastWithPrefix(init, j) && init[j] == Index(init)[keyPrefix] && init[j].keyPrefix == keyPrefix;
      assert autolinks[j] == init[j];
      assert IsLastWithPrefix(autolinks, j);
    }
  }

  /** Only one autolink is the last with a given prefix. */
  lemma LastWithPrefixUnique(autolinks: seq<GithubAutolink>, i: int, j: int)
    requires IsLastWithPrefix(autolinks, i) && IsLastWithPrefix(autolinks, j)
    requires autolinks[i].keyPrefix == autolinks[j].keyPrefix
    ensures i == j
  {
  }

  /** The index entry of an existing prefix is its last autolink. */
  lemma IndexAt(autolinks: seq<GithubAutolink>, j: int)
    requires IsLastWithPrefix(autolinks, j)
    ensures autolinks[j].keyPrefix in Index(autolinks)
    ensures Index(autolinks)[autolinks[j].keyPrefix] == autolinks[j]
  {
    var kp := autolinks[j].keyPrefix;
    IndexDomain(autolinks, kp);
    IndexLastWins(autolinks, kp);
    var i :| IsLastWithPrefix(autolinks, i) && autolinks[i] == Index(autolinks)[kp] && autolinks[i].keyPrefix == kp;
    LastWithPrefixUnique(autolinks, i, j);
  }

  /** The map's key order lists each prefix once. */
  lemma {:induction false} KeyOrderDistinct(autolinks: seq<GithubAutolink>)
    ensures forall a, b | 0 <= a < b < |KeyOrder(autolinks)| :: KeyOrder(autolinks)[a] != KeyOrder(autolinks)[b]
  {
    if autolinks != [] {
      KeyOrderDistinct(autolinks[..|autolinks| - 1]);
    }
  }

  lemma {:induction false} DesiredPrefixesMeans(projects: seq<JiraProject>, keyPrefix: string)
    ensures keyPrefix in DesiredPrefixes(projects) <==> !Undesired(projects, keyPrefix)
  {
    if projects != [] {
      var init := projects[..|projects| - 1];
      DesiredPrefixesMeans(init, keyPrefix);
      assert projects == init + [projects[|projects| - 1]];
    }
  }

  lemma KeyPrefixInjective(a: JiraProject, b: JiraProject)
    requires KeyPrefix(a) == KeyPrefix(b)
    ensures a.key == b.key
  {
    assert a.key == KeyPrefix(a)[..|a.key|];
    assert b.key == KeyPrefix(b)[..|b.key|];
  }

  // ---------------------------------------------------------------------
  // The two halves of the operation list

  lemma {:induction false} ProjectOpsAreUpserts(projects: seq<JiraProject>, existing: map<string, GithubAutolink>, jiraUrl: string)
    ensures forall o | o in ProjectOps(projects, existing, jiraUrl) :: !o.Delete? && o.keyPrefix in DesiredPrefixes(projects)
  {
    if projects != [] {
      ProjectOpsAreUpserts(projects[..|projects| - 1], existing, jiraUrl);
    }
  }

  lemma {:induction false} DeletionOpsAreDeletes(keys: seq<string>, existing: map<string, GithubAutolink>, desired: set<string>, jiraUrl: string)
    ensures forall o | o in DeletionOps(keys, existing, desired, jiraUrl) ::
      && o.Delete? && o.keyPrefix in keys && o.keyPrefix !in desired
      && o.keyPrefix in existing && existing[o.keyPrefix].id == o.autolinkId
      && IsJiraAutolink(existing[o.keyPrefix], jiraUrl)
  {
    if keys != [] {
      DeletionOpsAreDeletes(keys[..|keys| - 1], existing, desired, jiraUrl);
    }
  }

  lemma {:induction false} DeletionOpsPrefixes(keys: seq<string>, existing: map<string, GithubAutolink>, desired: set<string>, jiraUrl: string)
    ensures forall o | o in DeletionOps(keys, existing, desired, jiraUrl) :: o.keyPrefix in keys
  {
    if keys != [] {
      DeletionOpsPrefixes(keys[..|keys| - 1], existing, desired, jiraUrl);
    }
  }

  lemma {:induction false} DeletionOpsMembership(keys: seq<string>, existing: map<string, GithubAutolink>, desired: set<string>, jiraUrl: string, id: int, keyPrefix: string)
    ensures Delete(id, keyPrefix) in DeletionOps(keys, existing, desired, jiraUrl)
        <==> (&& keyPrefix in keys && keyPrefix !in desired && keyPrefix in existing
              && existing[keyPrefix].id == id && IsJiraAutolink(existing[keyPrefix], jiraUrl))
  {
    if keys != [] {
      var init := keys[..|keys| - 1];
      DeletionOpsMembership(init, existing, desired, jiraUrl, id, keyPrefix);
      assert keys == init + [keys[|keys| - 1]];
    }
  }

  lemma {:induction false} DeletionOpsDistinct(keys: seq<string>, existing: map<string, GithubAutolink>, desired: set<string>, jiraUrl: string)
    requires forall a, b | 0 <= a < b < |keys| :: keys[a] != keys[b]
    ensures DistinctPrefixes(DeletionOps(keys, existing, desired, jiraUrl))
  {
    if keys != [] {
      var n := |keys| - 1;
      var init := keys[..n];
      DeletionOpsDistinct(init, existing, desired, jiraUrl);
      DeletionOpsPrefixes(init, existing, desired, jiraUrl);
      var d0 := DeletionOps(init, existing, desired, jiraUrl);
      var d := DeletionOps(keys, existing, desired, jiraUrl);
      assert keys[n] !in init by {
        forall a | 0 <= a < n ensures init[a] != keys[n] {
        }
      }
      var k := keys[n];
      var tail := if k !in desired && k in existing && IsJiraAutolink(existing[k], jiraUrl) then [Delete(existing[k].id, k)] else [];
      assert d == d0 + tail;
      forall a, b | 0 <= a < b < |d| ensures d[a].keyPrefix != d[b].keyPrefix {
        if b < |d0| {
          assert d[a] == d0[a] && d[b] == d0[b];
          assert d0[a].keyPrefix != d0[b].keyPrefix;
        } else {
          assert b == |d0| && d[b] == tail[0] && tail[0].keyPrefix == k;
          assert d[a] == d0[a] && d0[a] in d0;
          assert d0[a].keyPrefix in init;
          assert d0[a].keyPrefix != k;
        }
      }
    }
  }

  lemma {:induction false} OpsForNone(ops: seq<AutolinkOp>, keyPrefix: string)
    requires forall o | o in ops :: o.keyPrefix != keyPrefix
    ensures OpsFor(ops, keyPrefix) == []
  {
    if ops != [] {
      var init := ops[..|ops| - 1];
      assert forall o | o in init :: o in ops;
      OpsForNone(init, keyPrefix);
      assert ops[|ops| - 1] in ops;
    }
  }

  lemma DeletionOpsForDesired(keys: seq<string>, existing: map<string, GithubAutolink>, desired: set<string>, jiraUrl: string, keyPrefix: string)
    requires keyPrefix in desired
    ensures OpsFor(DeletionOps(keys, existing, desired, jiraUrl), keyPrefix) == []
  {
    DeletionOpsAreDeletes(keys, existing, desired, jiraUrl);
    OpsForNone(DeletionOps(keys, existing, desired, jiraUrl), keyPrefix);
  }

  /** Creates and updates in project order: the upserts of a concatenation are the concatenated upserts. */
  lemma {:induction false} ProjectOpsConcat(first: seq<JiraProject>, second: seq<JiraProject>, existing: map<string, GithubAutolink>, jiraUrl: string)
    ensures ProjectOps(first + second, existing, jiraUrl) == ProjectOps(first, existing, jiraUrl) + ProjectOps(second, existing, jiraUrl)
  {
    if second == [] {
      assert first + second == first;
    } else {
      var init := second[..|second| - 1];
      assert (first + second)[..|first + second| - 1] == first + init;
      ProjectOpsConcat(first, init, existing, jiraUrl);
    }
  }

  /** With distinct keys, the upserts for project i's prefix are exactly that project's operation. */
  lemma {:induction false} OpsForAll(ops: seq<AutolinkOp>, keyPrefix: string)
    requires forall o | o in ops :: o.keyPrefix == keyPrefix
    ensures OpsFor(ops, keyPrefix) == ops
  {
    if ops != [] {
      var init, last := ops[..|ops| - 1], ops[|ops| - 1];
      forall o | o in init ensures o.keyPrefix == keyPrefix {
        assert o in ops;
      }
      OpsForAll(init, keyPrefix);
      assert last in ops;
      assert OpsFor(ops, keyPrefix) == init + [last];
      assert ops == init + [last];
    }
  }

  /** The upserts for a prefix no listed project wants are none. */
  lemma ProjectOpsForUndesired(projects: seq<JiraProject>, existing: map<string, GithubAutolink>, jiraUrl: string, keyPrefix: string)
    requires Undesired(projects, keyPrefix)
    ensures OpsFor(ProjectOps(projects, existing, jiraUrl), keyPrefix) == []
  {
    ProjectOpsAreUpserts(projects, existing, jiraUrl);
    DesiredPrefixesMeans(projects, keyPrefix);
    OpsForNone(ProjectOps(projects, existing, jiraUrl), keyPrefix);
  }

  /** With distinct keys, no other project wants project i's prefix. */
  lemma OthersUndesire(projects: seq<JiraProject>, i: int)
    requires 0 <= i < |projects| && DistinctKeys(projects)
    ensures Undesired(projects[..i], KeyPrefix(projects[i]))
    ensures Undesired(projects[i + 1..], KeyPrefix(projects[i]))
  {
    forall p | p in projects[..i] || p in projects[i + 1..] ensures p.key + "-" != KeyPrefix(projects[i]) {
      var a :| 0 <= a < |projects| && a != i && projects[a] == p;
      if p.key + "-" == KeyPrefix(projects[i]) {
        KeyPrefixInjective(p, projects[i]);
      }
    }
  }

  lemma ProjectOpPrefix(project: JiraProject, existing: map<string, GithubAutolink>, jiraUrl: string)
    ensures forall o | o in ProjectOp(project, existing, jiraUrl) :: o.keyPrefix == KeyPrefix(project) && !o.Delete?
  {
  }

  /** With distinct keys, the upserts for project i's prefix are exactly that project's operation. */
  lemma ProjectOpsForPrefix(projects: seq<JiraProject>, existing: map<string, GithubAutolink>, jiraUrl: string, i: int)
    requires 0 <= i < |projects| && DistinctKeys(projects)
    ensures OpsFor(ProjectOps(projects, existing, jiraUrl), KeyPrefix(projects[i])) == ProjectOp(projects[i], existing, jiraUrl)
  {
    var kp := KeyPrefix(projects[i]);
    var before, here, after := projects[..i], [projects[i]], projects[i + 1..];
    assert projects == (before + here) + after;
    assert here[..0] == [];
    ProjectOpsConcat(before + here, after, existing, jiraUrl);
    ProjectOpsConcat(before, here, existing, jiraUrl);
    var opsHere := ProjectOp(projects[i], existing, jiraUrl);
    OpsForConcat(ProjectOps(before, existing, jiraUrl) + opsHere, ProjectOps(after, existing, jiraUrl), kp);
    OpsForConcat(ProjectOps(before, existing, jiraUrl), opsHere, kp);
    OthersUndesire(projects, i);
    ProjectOpPrefix(projects[i], existing, jiraUrl);
    ProjectOpsForUndesired(before, existing, jiraUrl, kp);
    ProjectOpsForUndesired(after, existing, jiraUrl, kp);
    OpsForAll(opsHere, kp);
  }

  /** With distinct keys, the whole plan's operations for project i's prefix are that project's operation. */
  lemma PlanOpsForProject(projects: seq<JiraProject>, autolinks: seq<GithubAutolink>, jiraUrl: string, i: int)
    requires 0 <= i < |projects| && DistinctKeys(projects)
    ensures OpsFor(PlanOperations(projects, autolinks, jiraUrl), KeyPrefix(projects[i]))
         == ProjectOp(projects[i], Index(autolinks), jiraUrl)
  {
    var kp := KeyPrefix(projects[i]);
    var upserts := ProjectOps(projects, Index(autolinks), jiraUrl);
    var deletes := DeletionOps(KeyOrder(autolinks), Index(autolinks), DesiredPrefixes(projects), jiraUrl);
    OpsForConcat(upserts, deletes, kp);
    ProjectOpsForPrefix(projects, Index(autolinks), jiraUrl, i);
    DesiredPrefixesMeans(projects, kp);
    assert projects[i] in projects;
    DeletionOpsForDesired(KeyOrder(autolinks), Index(autolinks), DesiredPrefixes(projects), jiraUrl, kp);
  }

  // ---------------------------------------------------------------------
  // The properties of the plan

  /** Ordering: once a delete appears, only deletes follow; creates and updates come first. */
  lemma PlanDeletesLast(projects: seq<JiraProject>, autolinks: seq<GithubAutolink>, jiraUrl: string)
    ensures var ops := PlanOperations(projects, autolinks, jiraUrl);
      forall a, b | 0 <= a < b < |ops| :: ops[a].Delete? ==> ops[b].Delete?
  {
    var upserts := ProjectOps(projects, Index(autolinks), jiraUrl);
    var deletes := DeletionOps(KeyOrder(autolinks), Index(autolinks), DesiredPrefixes(projects), jiraUrl);
    ProjectOpsAreUpserts(projects, Index(autolinks), jiraUrl);
    DeletionOpsAreDeletes(KeyOrder(autolinks), Index(autolinks), DesiredPrefixes(projects), jiraUrl);
    var ops := upserts + deletes;
    forall a | 0 <= a < |ops| ensures (a < |upserts| ==> !ops[a].Delete?) && (a >= |upserts| ==> ops[a].Delete?) {
      if a < |upserts| { assert ops[a] in upserts; } else { assert ops[a] in deletes; }
    }
  }

  /** A project whose prefix has no autolink yields exactly one create, with the template under `/browse/`. */
  lemma PlanCreatesMissing(projects: seq<JiraProject>, autolinks: seq<GithubAutolink>, jiraUrl: string, i: int)
    requires 0 <= i < |projects| && DistinctKeys(projects)
    requires forall j | 0 <= j < |autolinks| :: autolinks[j].keyPrefix != projects[i].key + "-"
    ensures var key := projects[i].key;
      OpsFor(PlanOperations(projects, autolinks, jiraUrl), key + "-")
        == [Create(key + "-", jiraUrl + "/browse/" + key + "-<num>")]
  {
    PlanOpsForProject(projects, autolinks, jiraUrl, i);
    IndexDomain(autolinks, KeyPrefix(projects[i]));
  }

  /**
   * A project whose (last) existing autolink has a different URL yields exactly
   * one update, carrying that autolink's id and the new template.
   */
  lemma PlanUpdatesChanged(projects: seq<JiraProject>, autolinks: seq<GithubAutolink>, jiraUrl: string, i: int, j: int)
    requires 0 <= i < |projects| && DistinctKeys(projects)
    requires IsLastWithPrefix(autolinks, j) && autolinks[j].keyPrefix == projects[i].key + "-"
    requires !UrlsEqual(autolinks[j].urlTemplate, jiraUrl + "/browse/" + projects[i].key + "-<num>")
    ensures var key := projects[i].key;
      OpsFor(PlanOperations(projects, autolinks, jiraUrl), key + "-")
        == [Update(autolinks[j].id, key + "-", jiraUrl + "/browse/" + key + "-<num>")]
  {
    PlanOpsForProject(projects, autolinks, jiraUrl, i);
    IndexAt(autolinks, j);
  }

  /** The upserts for a prefix whose existing template every project asking for it already matches are none. */
  lemma {:induction false} ProjectOpsForMatched(projects: seq<JiraProject>, existing: map<string, GithubAutolink>, jiraUrl: string, keyPrefix: string)
    requires keyPrefix in existing
    requires forall p | p in projects && KeyPrefix(p) == keyPrefix :: UrlsEqual(existing[keyPrefix].urlTemplate, UrlTemplate(jiraUrl, p))
    ensures OpsFor(ProjectOps(projects, existing, jiraUrl), keyPrefix) == []
  {
    if projects != [] {
      var init := projects[..|projects| - 1];
      var p := projects[|projects| - 1];
      assert forall q | q in init :: q in projects;
      assert p in projects;
      ProjectOpsForMatched(init, existing, jiraUrl, keyPrefix);
      OpsForConcat(ProjectOps(init, existing, jiraUrl), ProjectOp(p, existing, jiraUrl), keyPrefix);
      ProjectOpPrefix(p, existing, jiraUrl);
      if KeyPrefix(p) != keyPrefix {
        OpsForNone(ProjectOp(p, existing, jiraUrl), keyPrefix);
      }
    }
  }

  /**
   * A project whose (last) existing autolink already has an equal URL yields
   * no operation, even when other projects repeat its key.
   */
  lemma PlanSkipsConverged(projects: seq<JiraProject>, autolinks: seq<GithubAutolink>, jiraUrl: string, i: int, j: int)
    requires 0 <= i < |projects|
    requires IsLastWithPrefix(autolinks, j) && autolinks[j].keyPrefix == projects[i].key + "-"
    requires UrlsEqual(autolinks[j].urlTemplate, jiraUrl + "/browse/" + projects[i].key + "-<num>")
    ensures OpsFor(PlanOperations(projects, autolinks, jiraUrl), projects[i].key + "-") == []
  {
    var kp := KeyPrefix(projects[i]);
    var index := Index(autolinks);
    IndexAt(autolinks, j);
    forall p | p in projects && KeyPrefix(p) == kp ensures UrlsEqual(index[kp].urlTemplate, UrlTemplate(jiraUrl, p)) {
      KeyPrefixInjective(p, projects[i]);
    }
    ProjectOpsForMatched(projects, index, jiraUrl, kp);
    var upserts := ProjectOps(projects, index, jiraUrl);
    var deletes := DeletionOps(KeyOrder(autolinks), index, DesiredPrefixes(projects), jiraUrl);
    OpsForConcat(upserts, deletes, kp);
    DesiredPrefixesMeans(projects, kp);
    assert projects[i] in projects;
    DeletionOpsForDesired(KeyOrder(autolinks), index, DesiredPrefixes(projects), jiraUrl, kp);
  }

  /**
   * A delete is planned exactly for a prefix no project wants whose last
   * autolink passes the ownership test, and it carries that autolink's id.
   */
  lemma PlanDeleteIff(projects: seq<JiraProject>, autolinks: seq<GithubAutolink>, jiraUrl: string, id: int, keyPrefix: string)
    ensures Delete(id, keyPrefix) in PlanOperations(projects, autolinks, jiraUrl)
        <==> (&& Undesired(projects, keyPrefix)
              && exists j | IsLastWithPrefix(autolinks, j) ::
                   autolinks[j].keyPrefix == keyPrefix && autolinks[j].id == id && IsJiraAutolink(autolinks[j], jiraUrl))
  {
    var index := Index(autolinks);
    var desired := DesiredPrefixes(projects);
    var upserts := ProjectOps(projects, index, jiraUrl);
    var deletes := DeletionOps(KeyOrder(autolinks), index, desired, jiraUrl);
    ProjectOpsAreUpserts(projects, index, jiraUrl);
    assert Delete(id, keyPrefix) in upserts + deletes <==> Delete(id, keyPrefix) in deletes;
    DeletionOpsMembership(KeyOrder(autolinks), index, desired, jiraUrl, id, keyPrefix);
    KeyOrderMatchesIndex(autolinks);
    DesiredPrefixesMeans(projects, keyPrefix);
    if keyPrefix in index {
      IndexLastWins(autolinks, keyPrefix);
    }
    if exists j | IsLastWithPrefix(autolinks, j) :: autolinks[j].keyPrefix == keyPrefix {
      var j :| IsLastWithPrefix(autolinks, j) && autolinks[j].keyPrefix == keyPrefix;
      IndexAt(autolinks, j);
      forall j' | IsLastWithPrefix(autolinks, j') && autolinks[j'].keyPrefix == keyPrefix ensures j' == j {
        LastWithPrefixUnique(autolinks, j, j');
      }
    }
  }

  /** At most one delete is planned per prefix, however often a prefix repeats among the autolinks. */
  lemma PlanDeletesOncePerPrefix(projects: seq<JiraProject>, autolinks: seq<GithubAutolink>, jiraUrl: string)
    ensures var ops := PlanOperations(projects, autolinks, jiraUrl);
      forall a, b | 0 <= a < b < |ops| && ops[a].Delete? && ops[b].Delete? :: ops[a].keyPrefix != ops[b].keyPrefix
  {
    var upserts := ProjectOps(projects, Index(autolinks), jiraUrl);
    var deletes := DeletionOps(KeyOrder(autolinks), Index(autolinks), DesiredPrefixes(projects), jiraUrl);
    ProjectOpsAreUpserts(projects, Index(autolinks), jiraUrl);
    KeyOrderDistinct(autolinks);
    DeletionOpsDistinct(KeyOrder(autolinks), Index(autolinks), DesiredPrefixes(projects), jiraUrl);
    var ops := upserts + deletes;
    forall a | 0 <= a < |upserts| ensures !ops[a].Delete? {
      assert ops[a] in upserts;
    }
    forall a | |upserts| <= a < |ops| ensures ops[a] == deletes[a - |upserts|] {
    }
  }

  /** An autolink that fails the ownership test and whose prefix nobody wants is never touched. */
  lemma PlanLeavesUnownedAlone(projects: seq<JiraProject>, autolinks: seq<GithubAutolink>, jiraUrl: string, j: int)
    requires IsLastWithPrefix(autolinks, j)
    requires Undesired(projects, autolinks[j].keyPrefix)
    requires !IsJiraAutolink(autolinks[j], jiraUrl)
    ensures OpsFor(PlanOperations(projects, autolinks, jiraUrl), autolinks[j].keyPrefix) == []
  {
    var kp := autolinks[j].keyPrefix;
    var index := Index(autolinks);
    var desired := DesiredPrefixes(projects);
    OpsForConcat(ProjectOps(projects, index, jiraUrl), DeletionOps(KeyOrder(autolinks), index, desired, jiraUrl), kp);
    ProjectOpsForUndesired(projects, index, jiraUrl, kp);
    IndexAt(autolinks, j);
    DeletionOpsForUnowned(KeyOrder(autolinks), index, desired, jiraUrl, kp);
  }

  lemma DeletionOpsForUnowned(keys: seq<string>, existing: map<string, GithubAutolink>, desired: set<string>, jiraUrl: string, keyPrefix: string)
    requires keyPrefix in existing && !IsJiraAutolink(existing[keyPrefix], jiraUrl)
    ensures OpsFor(DeletionOps(keys, existing, desired, jiraUrl), keyPrefix) == []
  {
    DeletionOpsAreDeletes(keys, existing, desired, jiraUrl);
    OpsForNone(DeletionOps(keys, existing, desired, jiraUrl), keyPrefix);
  }

  /**
   * Converged input: every project's prefix has autolinks whose URLs all
   * equal its template, and no autolink with an unwanted prefix is owned.
   * Then the plan is empty.
   */
  lemma PlanEmptyWhenConverged(projects: seq<JiraProject>, autolinks: seq<GithubAutolink>, jiraUrl: string)
    requires forall p | p in projects ::
      && (exists j | 0 <= j < |autolinks| :: autolinks[j].keyPrefix == p.key + "-")
      && (forall j | 0 <= j < |autolinks| && autolinks[j].keyPrefix == p.key + "-" ::
            UrlsEqual(autolinks[j].urlTemplate, jiraUrl + "/browse/" + p.key + "-<num>"))
    requires forall j | 0 <= j < |autolinks| && Undesired(projects, autolinks[j].keyPrefix) ::
      !IsJiraAutolink(autolinks[j], jiraUrl)
    ensures PlanOperations(projects, autolinks, jiraUrl) == []
  {
    var index := Index(autolinks);
    var desired := DesiredPrefixes(projects);
    ConvergedProjectsNeedNothing(projects, autolinks, jiraUrl);
    var deletes := DeletionOps(KeyOrder(autolinks), index, desired, jiraUrl);
    DeletionOpsAreDeletes(KeyOrder(autolinks), index, desired, jiraUrl);
    if deletes != [] {
      var o := deletes[0];
      assert o in deletes;
      var kp := o.keyPrefix;
      IndexLastWins(autolinks, kp);
      DesiredPrefixesMeans(projects, kp);
      assert false;
    }
  }

  lemma {:induction false} ConvergedProjectsNeedNothing(projects: seq<JiraProject>, autolinks: seq<GithubAutolink>, jiraUrl: string)
    requires forall p | p in projects ::
      && (exists j | 0 <= j < |autolinks| :: autolinks[j].keyPrefix == p.key + "-")
      && (forall j | 0 <= j < |autolinks| && autolinks[j].keyPrefix == p.key + "-" ::
            UrlsEqual(autolinks[j].urlTemplate, jiraUrl + "/browse/" + p.key + "-<num>"))
    ensures ProjectOps(projects, Index(autolinks), jiraUrl) == []
  {
    if projects != [] {
      var init := projects[..|projects| - 1];
      var p := projects[|projects| - 1];
      assert p in projects;
      assert forall q | q in init :: q in projects;
      ConvergedProjectsNeedNothing(init, autolinks, jiraUrl);
      IndexDomain(autolinks, KeyPrefix(p));
      IndexLastWins(autolinks, KeyPrefix(p));
    }
  }

  // ---------------------------------------------------------------------
  // This file's URL comparison

  /** Letter case never matters to the comparison. */
  lemma PlanUrlsEqualIgnoresCase(a: string, b: string)
    requires Lower(a) == Lower(b)
    ensures UrlsEqual(a, b)
  {
  }

  /** One extra trailing slash does not matter... */
  lemma PlanUrlsEqualIgnoresOneSlash(a: string)
    requires !EndsWith(a, "/")
    ensures UrlsEqual(a + "/", a)
  {
    LowerAppend(a, "/");
    assert Lower(a + "/") == Lower(a) + "/";
    assert Lower(a + "/")[..|a|] == Lower(a);
  }

  /** ...but a second one does: only one slash is removed before comparing. */
  lemma PlanUrlsEqualKeepsSecondSlash(a: string)
    requires !EndsWith(a, "/")
    ensures !UrlsEqual(a + "//", a)
  {
    LowerAppend(a, "//");
    assert |NormalizeUrl(a + "//")| == |a| + 1;
    assert |NormalizeUrl(a)| == |a|;
  }

  /**
   * This file's normalisation and the one in the URL helpers agree on every
   * URL that does not end in two slashes; on `a + "//"` they differ.
   */
  lemma NormalizersAgreeUpToOneSlash(s: string)
    requires !EndsWith(s, "//")
    ensures NormalizeUrl(s) == Url.NormalizeUrl(s)
  {
    Url.StripLower(s);
    var l := Lower(s);
    if |s| >= 2 && s[|s| - 1] == '/' {
      assert s[|s| - 2..] == [s[|s| - 2], s[|s| - 1]];
      assert s[|s| - 2] != '/';
      assert s[..|s| - 1][|s| - 2] != '/';
    }
  }

  /**
   * Case-only and single-trailing-slash differences between the existing
   * autolink and the template yield no operation.
   */
  lemma PlanSkipsCaseAndSlashVariants(projects: seq<JiraProject>, autolinks: seq<GithubAutolink>, jiraUrl: string, i: int, j: int)
    requires 0 <= i < |projects|
    requires IsLastWithPrefix(autolinks, j) && autolinks[j].keyPrefix == projects[i].key + "-"
    requires var template := jiraUrl + "/browse/" + projects[i].key + "-<num>";
      Lower(autolinks[j].urlTemplate) == Lower(template) || autolinks[j].urlTemplate == template + "/"
    ensures OpsFor(PlanOperations(projects, autolinks, jiraUrl), projects[i].key + "-") == []
  {
    var template := jiraUrl + "/browse/" + projects[i].key + "-<num>";
    if autolinks[j].urlTemplate == template + "/" {
      assert template[|template| - 1] == '>';
      PlanUrlsEqualIgnoresOneSlash(template);
    }
    PlanSkipsConverged(projects, autolinks, jiraUrl, i, j);
  }
}
