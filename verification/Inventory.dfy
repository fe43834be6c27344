/** The source inventory (`conformance/check-source-inventory.py`): one entry for every
    path that every producer commit changed, and no other. Git's answers are data. */
module Inventory {
  import opened JsonValues
  import opened Texts

  /** One entry. What is not an object stands as the empty one: both are incomplete. */
  type Entry = map<string, Json>

  datatype Producer = Producer(commit: string, issue: int)

  /** What Git, UTF-8 decoding and SHA-256 answer. None stands for a failure that
      the checker reports. `Identity` is parent and tree, `Tree` mode, object and
      contents, `Diff` the fields that its output splits into. */
  datatype Git = Git(
    complete: bool,
    Identity: string -> Option<(string, string)>,
    Diff: (string, string) -> Option<seq<string>>,
    Utf8: string -> Option<string>,
    Tree: (string, string) -> Option<(string, string, string)>,
    Sha256: string -> string)

  const FIELDS := {
    "blob_oid", "byte_length", "git_file_mode", "issue", "parent_sha", "path", "sha256", "source_commit", "tree_sha"
  }
  const STATUSES := {"A", "M", "T"}

  // ---- Entries -------------------------------------------------------------------

  /** Python's `==` between a decoded number or Boolean and an `int`. */
  predicate IsNumber(f: Json, n: int) {
    Equal(f, Number(Whole(n)), true)
  }

  predicate Complete(e: Entry) {
    e.Keys == FIELDS && e["source_commit"].String? && e["path"].String?
  }

  function Commit(e: Entry): string {
    if Complete(e) then e["source_commit"].s else ""
  }

  function Path(e: Entry): string {
    if Complete(e) then e["path"].s else ""
  }

  /** An absolute path, or one with a parent step, or none. */
  predicate Unsafe(path: string) {
    path == "" || path[0] == '/' || exists i | 0 <= i <= |path| - 2 :: ParentAt(path, i)
  }

  /** Two dots between separators, or the ends of the path. */
  predicate ParentAt(path: string, i: nat)
    requires i + 2 <= |path|
  {
    && path[i] == '.' && path[i + 1] == '.'
    && (i == 0 || path[i - 1] == '/') && (i + 2 == |path| || path[i + 2] == '/')
  }

  function IssueOf(producers: seq<Producer>, commit: string): Option<int> {
    if producers == [] then None
    else if producers[0].commit == commit then Some(producers[0].issue)
    else IssueOf(producers[1..], commit)
  }

  predicate Admissible(e: Entry, producers: seq<Producer>) {
    && Complete(e) && !Unsafe(Path(e))
    && IssueOf(producers, Commit(e)).Some? && IsNumber(e["issue"], IssueOf(producers, Commit(e)).value)
  }

  /** Every entry is admissible, and no two have one identity. */
  ghost predicate AllAdmissible(entries: seq<Entry>, producers: seq<Producer>) {
    && (forall i | 0 <= i < |entries| :: Admissible(entries[i], producers))
    && (forall i, j | 0 <= i < j < |entries| ::
          Commit(entries[i]) != Commit(entries[j]) || Path(entries[i]) != Path(entries[j]))
  }

  /** The entries of one producer, in order. */
  function Of(entries: seq<Entry>, commit: string): (r: seq<Entry>)
    ensures forall e :: e in r <==> e in entries && Commit(e) == commit
  {
    if entries == [] then []
    else
      var last := entries[|entries| - 1];
      Of(entries[..|entries| - 1], commit) + if Commit(last) == commit then [last] else []
  }

  // ---- Changed paths -------------------------------------------------------------

  /** `fields.pop()` of the empty field behind the last separator. */
  function Trimmed(fields: seq<string>): seq<string> {
    if fields != [] && fields[|fields| - 1] == "" then fields[..|fields| - 1] else fields
  }

  function StatusAt(fields: seq<string>, k: nat): string
    requires 2 * k + 1 < |fields|
  {
    fields[2 * k]
  }

  function PathAt(fields: seq<string>, k: nat, git: Git): Option<string>
    requires 2 * k + 1 < |fields|
  {
    git.Utf8(fields[2 * k + 1])
  }

  /** The first `n` pairs are of a supported status and a path, no path twice. */
  ghost predicate Pairs(fields: seq<string>, n: nat, git: Git)
    requires 2 * n <= |fields|
  {
    && (forall k | 0 <= k < n :: StatusAt(fields, k) in STATUSES && PathAt(fields, k, git).Some?)
    && (forall j, k | 0 <= j < k < n :: PathAt(fields, j, git) != PathAt(fields, k, git))
  }

  ghost function PathsIn(fields: seq<string>, n: nat, git: Git): set<string>
    requires 2 * n <= |fields|
  {
    set k | 0 <= k < n && PathAt(fields, k, git).Some? :: PathAt(fields, k, git).value
  }

  lemma OnePair(fields: seq<string>, n: nat, git: Git)
    requires 2 * n + 1 < |fields| && Pairs(fields, n, git)
    ensures var path := PathAt(fields, n, git);
            && (Pairs(fields, n + 1, git) <==>
                  StatusAt(fields, n) in STATUSES && path.Some? && path.value !in PathsIn(fields, n, git))
            && (path.Some? ==> PathsIn(fields, n + 1, git) == PathsIn(fields, n, git) + {path.value})
  {
    hide StatusAt, PathAt;
    var path := PathAt(fields, n, git);
    if path.Some? && path.value in PathsIn(fields, n, git) {
      var k :| 0 <= k < n && PathAt(fields, k, git) == path;
    }
  }

  lemma FewerPairs(fields: seq<string>, n: nat, m: nat, git: Git)
    requires n <= m && 2 * m <= |fields|
    ensures Pairs(fields, m, git) ==> Pairs(fields, n, git)
  {
  }

  /** The listing is nothing but such pairs. */
  ghost predicate Listing(fields: seq<string>, git: Git) {
    |fields| % 2 == 0 && Pairs(fields, |fields| / 2, git)
  }

  ghost function Listed(fields: seq<string>, git: Git): set<string> {
    PathsIn(fields, |fields| / 2, git)
  }

  /** The paths a producer changed against its one parent; None when Git or the
      checker finds fault with the answer. */
  ghost function Changed(commit: string, git: Git): Option<set<string>> {
    match git.Identity(commit)
    case None => None
    case Some((parent, _)) =>
      var fields := git.Diff(parent, commit);
      if fields.Some? && Listing(Trimmed(fields.value), git) then Some(Listed(Trimmed(fields.value), git)) else None
  }

  /** `_changed_paths`; None when it raises. */
  method ChangedPaths(parent: string, commit: string, git: Git) returns (r: Option<set<string>>)
    ensures r == match git.Diff(parent, commit)
                 case None => None
                 case Some(fields) =>
                   if Listing(Trimmed(fields), git) then Some(Listed(Trimmed(fields), git)) else None
  {
    var output := git.Diff(parent, commit);
    if output.None? {
      return None;
    }
    var fields := Trimmed(output.value);
    if |fields| % 2 != 0 {
      return None;
    }
    hide Pairs, PathsIn;
    NoPairs(fields, git);
    var paths: set<string> := {};
    for k := 0 to |fields| / 2
      invariant Pairs(fields, k, git) && paths == PathsIn(fields, k, git)
    {
      OnePair(fields, k, git);
      var status, path := StatusAt(fields, k), PathAt(fields, k, git);
      if path.None? || status == "D" || status !in STATUSES || path.value in paths {
        FewerPairs(fields, k + 1, |fields| / 2, git);
        return None;
      }
      paths := paths + {path.value};
    }
    r := Some(paths);
  }

  lemma NoPairs(fields: seq<string>, git: Git)
    ensures Pairs(fields, 0, git) && PathsIn(fields, 0, git) == {}
  {
  }

  // ---- The check -----------------------------------------------------------------

  /** The entry says what Git says of its path. */
  predicate Matches(e: Entry, commit: string, git: Git) {
    && Complete(e) && git.Identity(commit).Some?
    && e["parent_sha"] == String(git.Identity(commit).value.0)
    && e["tree_sha"] == String(git.Identity(commit).value.1)
    && git.Tree(commit, Path(e)).Some?
    && var (mode, oid, blob) := git.Tree(commit, Path(e)).value;
       && e["git_file_mode"] == String(mode)
       && e["blob_oid"] == String(oid)
       && e["byte_length"] == Number(Whole(|blob|))
       && e["sha256"] == String(git.Sha256(blob))
  }

  ghost function PathsOf(entries: seq<Entry>, commit: string): set<string> {
    set e | e in entries && Commit(e) == commit :: Path(e)
  }

  /** The entries of a producer are its changed paths, each as Git has it. */
  ghost predicate ProducerHolds(commit: string, entries: seq<Entry>, git: Git) {
    && Changed(commit, git) == Some(PathsOf(entries, commit))
    && forall e | e in entries && Commit(e) == commit :: Matches(e, commit, git)
  }

  ghost function Total(producers: seq<Producer>, git: Git): nat {
    if producers == [] then 0
    else
      var last := Changed(producers[|producers| - 1].commit, git);
      Total(producers[..|producers| - 1], git) + if last.Some? then |last.value| else 0
  }

  ghost predicate Unique(producers: seq<Producer>) {
    forall i, j | 0 <= i < j < |producers| :: producers[i].commit != producers[j].commit
  }

  ghost predicate Produces(producers: seq<Producer>, commit: string) {
    exists i :: 0 <= i < |producers| && producers[i].commit == commit
  }

  /** Everything but the final count. */
  ghost predicate Holds(entries: seq<Entry>, producers: seq<Producer>, git: Git) {
    AllAdmissible(entries, producers) && forall i | 0 <= i < |producers| ::
        ProducerHolds(producers[i].commit, entries, git)
  }

  ghost predicate Accepted(entries: seq<Entry>, itemCount: int, producers: seq<Producer>, git: Git) {
    git.complete && Holds(entries, producers, git) && Total(producers, git) == itemCount
  }

  /** `_check_inventory`; None when it raises, and otherwise its two counts. */
  method CheckInventory(entries: seq<Entry>, itemCount: int, producers: seq<Producer>, git: Git)
    returns (r: Option<(nat, nat)>)
    requires Unique(producers)
    ensures r.Some? <==> Accepted(entries, itemCount, producers, git)
    ensures r.Some? ==> r.value == (Total(producers, git), |producers|)
  {
    hide AllAdmissible, ProducerHolds, Total;
    if !git.complete {
      return None;
    }
    var grouped := GroupEntries(entries, producers);
    if grouped.None? {
      return None;
    }
    var exactTotal := CheckProducers(entries, grouped.value, producers, git);
    r := if exactTotal == Some(itemCount) then Some((exactTotal.value, |producers|)) else None;
  }

  /** The second loop. */
  method CheckProducers(entries: seq<Entry>, grouped: map<string, seq<Entry>>, producers: seq<Producer>, git: Git)
    returns (r: Option<int>)
    requires AllAdmissible(entries, producers)
    requires forall i | 0 <= i < |producers| ::
               producers[i].commit in grouped && grouped[producers[i].commit] == Of(entries, producers[i].commit)
    ensures r.Some? <==> forall i | 0 <= i < |producers| :: ProducerHolds(producers[i].commit, entries, git)
    ensures r.Some? ==> r.value == Total(producers, git)
  {
    hide AllAdmissible, ProducerHolds, Changed, Of, Total;
    var exactTotal: nat := 0;
    TotalSteps(producers, 0, git);
    for k := 0 to |producers|
      invariant forall i | 0 <= i < k :: ProducerHolds(producers[i].commit, entries, git)
      invariant exactTotal == Total(producers[..k], git)
    {
      TotalSteps(producers, k, git);
      var commit := producers[k].commit;
      var paths := CheckProducer(commit, grouped[commit], git, entries, producers);
      if paths.None? {
        return None;
      }
      exactTotal := exactTotal + |paths.value|;
    }
    assert producers[..|producers|] == producers;
    r := Some(exactTotal);
  }

  lemma TotalSteps(producers: seq<Producer>, k: nat, git: Git)
    requires k <= |producers|
    ensures Total(producers[..0], git) == 0
    ensures k < |producers| ==>
              var changed := Changed(producers[k].commit, git);
              Total(producers[..k + 1], git) == Total(producers[..k], git) +
              if changed.Some? then |changed.value| else 0
  {
    hide Changed;
    if k < |producers| {
      assert producers[..k + 1][..k] == producers[..k];
    }
  }

  /** One pass of the second loop. */
  method CheckProducer(commit: string, group: seq<Entry>, git: Git, ghost entries: seq<Entry>,
                       ghost producers: seq<Producer>)
    returns (r: Option<set<string>>)
    requires AllAdmissible(entries, producers) && group == Of(entries, commit)
    ensures r.Some? <==> ProducerHolds(commit, entries, git)
    ensures r.Some? ==> r == Changed(commit, git)
  {
    hide AllAdmissible, Matches, Listing, Listed, Trimmed, Commit, Path;
    var identity := git.Identity(commit);
    if identity.None? {
      return None;
    }
    r := ChangedPaths(identity.value.0, commit, git);
    if r.None? {
      return;
    }
    var manifest := set e | e in group :: Path(e);
    OfDistinct(entries, commit, producers);
    PathsCount(group);
    assert manifest == PathsOf(entries, commit);
    if manifest != r.value || |group| != |r.value| {
      return None;
    }
    var all := CheckEntries(commit, group, git);
    if !all {
      return None;
    }
  }

  method CheckEntries(commit: string, group: seq<Entry>, git: Git) returns (all: bool)
    ensures all <==> forall e | e in group :: Matches(e, commit, git)
  {
    for k := 0 to |group|
      invariant forall i | 0 <= i < k :: Matches(group[i], commit, git)
    {
      if !Matches(group[k], commit, git) {
        return false;
      }
    }
    all := true;
  }

  ghost predicate DistinctPaths(es: seq<Entry>) {
    forall i, j | 0 <= i < j < |es| :: Path(es[i]) != Path(es[j])
  }

  lemma {:induction false} OfDistinct(entries: seq<Entry>, commit: string, producers: seq<Producer>)
    requires AllAdmissible(entries, producers)
    ensures DistinctPaths(Of(entries, commit))
  {
    if entries != [] {
      var earlier, last := entries[..|entries| - 1], entries[|entries| - 1];
      OfDistinct(earlier, commit, producers);
      forall e | e in Of(earlier, commit) && Commit(last) == commit ensures Path(e) != Path(last) {
        var i :| 0 <= i < |earlier| && earlier[i] == e;
        assert entries[i] == e;
      }
    }
  }

  lemma {:induction false} PathsCount(es: seq<Entry>)
    requires DistinctPaths(es)
    ensures |set e | e in es :: Path(e)| == |es|
  {
    if es != [] {
      var earlier, last := es[..|es| - 1], es[|es| - 1];
      PathsCount(earlier);
      var before := set e | e in earlier :: Path(e);
      assert Path(last) !in before;
      assert (set e | e in es :: Path(e)) == before + {Path(last)};
    }
  }

  /** The first loop: every entry on its own, and its place in a group. */
  method GroupEntries(entries: seq<Entry>, producers: seq<Producer>) returns (r: Option<map<string, seq<Entry>>>)
    ensures r.Some? <==> AllAdmissible(entries, producers)
    ensures r.Some? ==> forall i | 0 <= i < |producers| ::
              producers[i].commit in r.value && r.value[producers[i].commit] == Of(entries, producers[i].commit)
  {
    hide AllAdmissible, Admissible, Commit, Path, Of;
    Nothing(producers);
    assert entries[..0] == [];
    var grouped: map<string, seq<Entry>> := map i | 0 <= i < |producers| :: producers[i].commit := [];
    var identities: set<(string, string)> := {};
    for k := 0 to |entries|
      invariant AllAdmissible(entries[..k], producers)
      invariant identities == set i | 0 <= i < k :: (Commit(entries[i]), Path(entries[i]))
      invariant forall i | 0 <= i < |producers| ::
                  && producers[i].commit in grouped
                  && grouped[producers[i].commit] == Of(entries[..k], producers[i].commit)
    {
      OneMore(entries, k, producers);
      var e := entries[k];
      if !Admissible(e, producers) {
        return None;
      }
      var identity := (Commit(e), Path(e));
      if identity in identities {
        return None;
      }
      identities := identities + {identity};
      grouped := grouped[identity.0 := grouped[identity.0] + [e]];
    }
    assert entries[..|entries|] == entries;
    r := Some(grouped);
  }

  lemma Nothing(producers: seq<Producer>)
    ensures AllAdmissible([], producers) && forall commit :: Of([], commit) == []
  {
  }

  lemma OneMore(entries: seq<Entry>, k: nat, producers: seq<Producer>)
    requires k < |entries| && AllAdmissible(entries[..k], producers)
    ensures AllAdmissible(entries[..k + 1], producers) <==>
              && Admissible(entries[k], producers)
              && forall i | 0 <= i < k ::
                  Commit(entries[i]) != Commit(entries[k]) || Path(entries[i]) != Path(entries[k])
    ensures AllAdmissible(entries, producers) ==> AllAdmissible(entries[..k + 1], producers)
    ensures Admissible(entries[k], producers) ==>
            exists i :: 0 <= i < |producers| && producers[i].commit == Commit(entries[k])
    ensures forall commit :: Of(entries[..k + 1], commit) ==
              Of(entries[..k], commit) + if Commit(entries[k]) == commit then [entries[k]] else []
  {
    hide Admissible, Commit, Path;
    var before, after := entries[..k], entries[..k + 1];
    assert after[..k] == before;
    assert forall i | 0 <= i < k :: after[i] == before[i] == entries[i];
    assert after[k] == entries[k];
    AdmissibleIsProducers(entries[k], producers);
  }

  lemma AdmissibleIsProducers(e: Entry, producers: seq<Producer>)
    ensures Admissible(e, producers) ==> exists i :: 0 <= i < |producers| && producers[i].commit == Commit(e)
  {
    if Admissible(e, producers) {
      IssueIsProducers(producers, Commit(e));
    }
  }

  lemma {:induction false} IssueIsProducers(producers: seq<Producer>, commit: string)
    requires IssueOf(producers, commit).Some?
    ensures exists i :: 0 <= i < |producers| && producers[i].commit == commit
  {
    if producers[0].commit != commit {
      IssueIsProducers(producers[1..], commit);
      var i :| 0 <= i < |producers[1..]| && producers[1..][i].commit == commit;
      assert producers[i + 1].commit == commit;
    }
  }

  // ---- What an accepted inventory is -----------------------------------------------

  /** Entries and changed paths correspond one to one: a path is a change of a
      producer exactly when some entry says so, and only one does. */
  lemma EntriesAreChanges(entries: seq<Entry>, producers: seq<Producer>, git: Git, commit: string, path: string)
    requires Holds(entries, producers, git)
    ensures Produces(producers, commit) && Changed(commit, git).Some? && path in Changed(commit, git).value <==>
              exists i :: 0 <= i < |entries| && Commit(entries[i]) == commit && Path(entries[i]) == path
    ensures forall i, j | 0 <= i < |entries| && 0 <= j < |entries|
                && Commit(entries[i]) == Commit(entries[j]) == commit
                && Path(entries[i]) == Path(entries[j]) == path :: i == j
  {
    hide Commit, Path, Admissible;
    if i :| 0 <= i < |entries| && Commit(entries[i]) == commit && Path(entries[i]) == path {
      AdmissibleIsProducers(entries[i], producers);
      assert entries[i] in entries;
    }
    if Produces(producers, commit) && path in PathsOf(entries, commit) {
      var e :| e in entries && Commit(e) == commit && Path(e) == path;
      var i :| 0 <= i < |entries| && entries[i] == e;
    }
  }

  /** The entries of all producers, each counted in its group. */
  ghost function Grouped(entries: seq<Entry>, producers: seq<Producer>): nat {
    if producers == [] then 0
    else Grouped(entries, producers[..|producers| - 1]) + |Of(entries, producers[|producers| - 1].commit)|
  }

  lemma OfGrows(entries: seq<Entry>, e: Entry, commit: string)
    ensures Of(entries + [e], commit) == Of(entries, commit) + if Commit(e) == commit then [e] else []
  {
    hide Commit;
    assert (entries + [e])[..|entries|] == entries;
  }

  lemma ProducesSteps(producers: seq<Producer>, commit: string)
    requires producers != []
    ensures Produces(producers, commit) <==>
              Produces(producers[..|producers| - 1], commit) || producers[|producers| - 1].commit == commit
  {
    var earlier := producers[..|producers| - 1];
    if i :| 0 <= i < |producers| && producers[i].commit == commit {
      assert i < |earlier| ==> earlier[i].commit == commit;
    }
    if i :| 0 <= i < |earlier| && earlier[i].commit == commit {
      assert producers[i].commit == commit;
    }
  }

  lemma LastIsNew(producers: seq<Producer>)
    requires Unique(producers) && producers != []
    ensures Unique(producers[..|producers| - 1])
    ensures !Produces(producers[..|producers| - 1], producers[|producers| - 1].commit)
  {
  }

  lemma {:induction false} OneGroupGrows(entries: seq<Entry>, e: Entry, producers: seq<Producer>)
    requires Unique(producers)
    ensures Grouped(entries + [e], producers) == Grouped(entries, producers) +
            if Produces(producers, Commit(e)) then 1 else 0
  {
    hide Commit, Of, Produces, Unique;
    if producers == [] {
      NothingProduces(Commit(e));
    } else {
      var earlier, last := producers[..|producers| - 1], producers[|producers| - 1];
      LastIsNew(producers);
      OneGroupGrows(entries, e, earlier);
      OfGrows(entries, e, last.commit);
      ProducesSteps(producers, Commit(e));
    }
  }

  lemma NothingProduces(commit: string)
    ensures !Produces([], commit)
  {
  }

  lemma {:induction false} GroupsHoldAll(entries: seq<Entry>, producers: seq<Producer>)
    requires Unique(producers) && forall i | 0 <= i < |entries| :: Produces(producers, Commit(entries[i]))
    ensures Grouped(entries, producers) == |entries|
  {
    hide Commit, Produces, Unique, Grouped;
    if entries == [] {
      NoGroups(producers);
    } else {
      var earlier, last := entries[..|entries| - 1], entries[|entries| - 1];
      GroupsHoldAll(earlier, producers);
      OneGroupGrows(earlier, last, producers);
      assert earlier + [last] == entries;
    }
  }

  lemma {:induction false} NoGroups(producers: seq<Producer>)
    ensures Grouped([], producers) == 0
  {
    if producers != [] {
      NoGroups(producers[..|producers| - 1]);
    }
  }

  /** A producer that holds has as many changed paths as entries. */
  lemma ChangesAreCounted(entries: seq<Entry>, producers: seq<Producer>, commit: string, git: Git)
    requires AllAdmissible(entries, producers) && ProducerHolds(commit, entries, git)
    ensures Changed(commit, git).Some? && |Changed(commit, git).value| == |Of(entries, commit)|
  {
    hide AllAdmissible, Changed, Matches, Commit, Path;
    OfDistinct(entries, commit, producers);
    PathsCount(Of(entries, commit));
    assert PathsOf(entries, commit) == set e | e in Of(entries, commit) :: Path(e);
  }

  lemma {:induction false} TotalIsGrouped(entries: seq<Entry>, all: seq<Producer>, producers: seq<Producer>, git: Git)
    requires Holds(entries, all, git) && producers <= all
    ensures Total(producers, git) == Grouped(entries, producers)
  {
    hide AllAdmissible, ProducerHolds, Changed, Of;
    if producers != [] {
      TotalIsGrouped(entries, all, producers[..|producers| - 1], git);
      assert producers[|producers| - 1] == all[|producers| - 1];
      ChangesAreCounted(entries, all, producers[|producers| - 1].commit, git);
    }
  }

  /** Once every other check has passed, the changes of all producers are as many
      as the entries: the final check can fail only on an `item_count` that the
      loader has refused before (`check-source-inventory.py:104-110`). */
  lemma CountFollows(entries: seq<Entry>, itemCount: int, producers: seq<Producer>, git: Git)
    requires Unique(producers) && git.complete && Holds(entries, producers, git)
    ensures Total(producers, git) == |entries|
    ensures Accepted(entries, itemCount, producers, git) <==> itemCount == |entries|
  {
    TotalIsGrouped(entries, producers, producers, git);
    forall i | 0 <= i < |entries| ensures Produces(producers, Commit(entries[i])) {
      AdmissibleIsProducers(entries[i], producers);
    }
    GroupsHoldAll(entries, producers);
  }

  // ---- What an entry says ------------------------------------------------------------

  /** The steps of a path, as between its separators. */
  function Components(path: string): seq<string>
    decreases |path|
  {
    var i := Index(path, '/');
    if i == |path| then [path] else [path[..i]] + Components(path[i + 1..])
  }

  /** A parent step is a component of its own. */
  lemma {:induction false} ParentIsComponent(path: string)
    ensures (exists i | 0 <= i <= |path| - 2 :: ParentAt(path, i)) <==> ".." in Components(path)
    decreases |path|
  {
    hide Index;
    var j := Index(path, '/');
    if j == |path| {
      WholeComponent(path);
    } else {
      var first, rest := path[..j], path[j + 1..];
      ParentIsComponent(rest);
      assert ".." in Components(path) <==> first == ".." || ".." in Components(rest);
      if first == ".." {
        assert path[0] == first[0] && path[1] == first[1];
        assert ParentAt(path, 0);
      }
      forall k | 0 <= k <= |rest| - 2 ensures ParentAt(path, k + j + 1) <==> ParentAt(rest, k) {
        assert forall i | j < i < |path| :: path[i] == rest[i - j - 1];
      }
      forall i | 0 <= i <= |path| - 2 && ParentAt(path, i) && i <= j ensures first == ".." {
        assert forall k | 0 <= k < j :: path[k] == first[k] && first[k] in first;
        assert i == 0 && j == 2;
      }
      forall i | 0 <= i <= |path| - 2 && ParentAt(path, i) && i > j ensures ".." in Components(path) {
        assert ParentAt(rest, i - j - 1);
      }
    }
  }

  lemma WholeComponent(path: string)
    requires '/' !in path
    ensures (exists i | 0 <= i <= |path| - 2 :: ParentAt(path, i)) <==> path == ".."
  {
    if path == ".." {
      assert ParentAt(path, 0);
    }
  }

  /** A relative path of at least one step, none of them to a parent. */
  ghost predicate Relative(path: string) {
    path != "" && path[0] != '/' && ".." !in Components(path)
  }

  lemma {:induction false} IssueIsOf(producers: seq<Producer>, commit: string, issue: int)
    requires Unique(producers)
    ensures IssueOf(producers, commit) == Some(issue) <==> Producer(commit, issue) in producers
  {
    if producers != [] {
      assert forall i, j | 0 <= i < j < |producers[1..]| :: producers[1..][i].commit != producers[1..][j].commit by {
        assert forall i | 0 <= i < |producers[1..]| :: producers[1..][i] == producers[i + 1];
      }
      IssueIsOf(producers[1..], commit, issue);
      assert forall i | 0 <= i < |producers[1..]| :: producers[1..][i].commit != producers[0].commit;
    }
  }

  /** What Git has of a path of a producer: the parent and the tree of the commit, and
      mode, object and contents of the file. */
  datatype Fact = Fact(
    producer: Producer, path: string, parent: string, tree: string, mode: string, oid: string, blob: string)

  ghost predicate InGit(f: Fact, git: Git) {
    && git.Identity(f.producer.commit) == Some((f.parent, f.tree))
    && git.Tree(f.producer.commit, f.path) == Some((f.mode, f.oid, f.blob))
  }

  /** The entry has nine members, which say the fact, and no other. */
  ghost predicate Says(e: Entry, f: Fact, git: Git) {
    && e.Keys == {
         "blob_oid", "byte_length", "git_file_mode", "issue", "parent_sha", "path", "sha256", "source_commit",
         "tree_sha"
       }
    && e["source_commit"] == String(f.producer.commit)
    && Equal(e["issue"], Number(Whole(f.producer.issue)), true)
    && e["path"] == String(f.path)
    && e["parent_sha"] == String(f.parent)
    && e["tree_sha"] == String(f.tree)
    && e["git_file_mode"] == String(f.mode)
    && e["blob_oid"] == String(f.oid)
    && e["byte_length"] == Number(Whole(|f.blob|))
    && e["sha256"] == String(git.Sha256(f.blob))
  }

  lemma FactOf(e: Entry, producers: seq<Producer>, git: Git) returns (f: Fact)
    requires Unique(producers) && Admissible(e, producers) && Matches(e, Commit(e), git)
    ensures Says(e, f, git) && InGit(f, git) && f.producer in producers && Relative(f.path)
  {
    hide Unsafe, Unique, Equal, Components;
    var commit, path := Commit(e), Path(e);
    var (parent, tree) := git.Identity(commit).value;
    var (mode, oid, blob) := git.Tree(commit, path).value;
    var issue := IssueOf(producers, commit).value;
    f := Fact(Producer(commit, issue), path, parent, tree, mode, oid, blob);
    IssueIsOf(producers, commit, issue);
    RelativeIsSafe(path);
  }

  lemma RelativeIsSafe(path: string)
    ensures Unsafe(path) <==> !Relative(path)
  {
    hide Components;
    ParentIsComponent(path);
  }

  lemma FactAdmits(e: Entry, f: Fact, producers: seq<Producer>, git: Git)
    requires Unique(producers) && Says(e, f, git) && InGit(f, git) && f.producer in producers && Relative(f.path)
    ensures Admissible(e, producers) && Matches(e, Commit(e), git)
  {
    hide Unsafe, Unique, Equal, Components, Relative;
    IssueIsOf(producers, f.producer.commit, f.producer.issue);
    RelativeIsSafe(f.path);
    assert Commit(e) == f.producer.commit && Path(e) == f.path;
  }

  /** The checks on one entry admit exactly the entries that say what Git has of a relative
      path of a producer. */
  lemma EntrySays(e: Entry, producers: seq<Producer>, git: Git)
    requires Unique(producers)
    ensures Admissible(e, producers) && Matches(e, Commit(e), git) <==>
              exists f: Fact :: Says(e, f, git) && InGit(f, git) && f.producer in producers && Relative(f.path)
  {
    hide Admissible, Matches, Commit, Says, InGit, Unique, Relative;
    if Admissible(e, producers) && Matches(e, Commit(e), git) {
      var f := FactOf(e, producers, git);
    }
    forall f: Fact | Says(e, f, git) && InGit(f, git) && f.producer in producers && Relative(f.path)
      ensures Admissible(e, producers) && Matches(e, Commit(e), git)
    {
      FactAdmits(e, f, producers, git);
    }
  }

  // ---- What Git lists ----------------------------------------------------------------

  /** The fields of a listing of statuses and paths. */
  ghost function Fields(pairs: seq<(string, string)>): seq<string> {
    if pairs == [] then []
    else Fields(pairs[..|pairs| - 1]) + [pairs[|pairs| - 1].0, pairs[|pairs| - 1].1]
  }

  lemma {:induction false} FieldsAt(pairs: seq<(string, string)>)
    ensures |Fields(pairs)| == 2 * |pairs|
    ensures forall k | 0 <= k < |pairs| ::
              Fields(pairs)[2 * k] == pairs[k].0 && Fields(pairs)[2 * k + 1] == pairs[k].1
  {
    if pairs != [] {
      FieldsAt(pairs[..|pairs| - 1]);
    }
  }

  /** Every path was added, modified or retyped and decodes, and none comes twice. */
  ghost predicate Proper(pairs: seq<(string, string)>, git: Git) {
    && (forall k | 0 <= k < |pairs| :: pairs[k].0 in {"A", "M", "T"} && git.Utf8(pairs[k].1).Some?)
    && (forall j, k | 0 <= j < k < |pairs| :: git.Utf8(pairs[j].1) != git.Utf8(pairs[k].1))
  }

  lemma PairsAt(pairs: seq<(string, string)>, k: nat, git: Git)
    requires k < |pairs|
    ensures |Fields(pairs)| == 2 * |pairs|
    ensures StatusAt(Fields(pairs), k) == pairs[k].0 && PathAt(Fields(pairs), k, git) == git.Utf8(pairs[k].1)
  {
    hide Fields;
    FieldsAt(pairs);
  }

  lemma PairsAreProper(pairs: seq<(string, string)>, git: Git)
    ensures |Fields(pairs)| == 2 * |pairs|
    ensures Pairs(Fields(pairs), |pairs|, git) <==> Proper(pairs, git)
    ensures PathsIn(Fields(pairs), |pairs|, git)
         == set k | 0 <= k < |pairs| && git.Utf8(pairs[k].1).Some? :: git.Utf8(pairs[k].1).value
  {
    hide Fields, StatusAt, PathAt;
    FieldsAt(pairs);
    forall k: nat | k < |pairs|
      ensures StatusAt(Fields(pairs), k) == pairs[k].0 && PathAt(Fields(pairs), k, git) == git.Utf8(pairs[k].1)
    {
      PairsAt(pairs, k, git);
    }
  }

  /** A commit of one parent, and a listing that ends in its separator: the changed paths
      are those of the pairs, if they are proper; otherwise the listing is refused. */
  lemma ChangedByPairs(commit: string, parent: string, tree: string, pairs: seq<(string, string)>, git: Git)
    requires git.Identity(commit) == Some((parent, tree)) && git.Diff(parent, commit) == Some(Fields(pairs) + [""])
    ensures Changed(commit, git) ==
              if !Proper(pairs, git) then None
              else Some(set k | 0 <= k < |pairs| && git.Utf8(pairs[k].1).Some? :: git.Utf8(pairs[k].1).value)
  {
    hide Fields, Pairs, PathsIn, Proper;
    var fields := Fields(pairs);
    PairsAreProper(pairs, git);
    assert Trimmed(fields + [""]) == fields;
  }
}
