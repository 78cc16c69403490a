/**
 Approved file changes: the validation of a plan, and the loop that applies it to
 a branch one file at a time.
 */
module FileApplication {
  import opened Options
  import opened Text

  const MAX_FILE_CHANGES: nat := 25
  const MAX_NEW_CONTENT_BYTES: nat := 250_000
  const BLOCKED_PATH_PARTS: seq<string> :=
    [".git", ".github/workflows", "node_modules", "venv", ".venv", "__pycache__"]
  const BLOCKED_FILENAMES: seq<string> :=
    [".env", ".env.local", ".env.production", "credentials.py", "secrets.json"]

  datatype FileChange = FileChange(path: string, changeType: string, newContent: Option<string>)

  /** The files of the target branch. */
  type Tree = map<string, string>

  datatype Kind = Create | Update | Delete | Other

  /** A change as both loops read it: trimmed path, normalised kind. */
  datatype Edit = Edit(path: string, kind: Kind, content: Option<string>)

  function KindOf(c: FileChange): Kind {
    var kind := Strip(Lower(c.changeType));
    if kind == "create" then Create else if kind == "update" then Update else if kind == "delete" then Delete else Other
  }

  function EditOf(c: FileChange): Edit { Edit(Strip(c.path), KindOf(c), c.newContent) }

  function Edits(plan: seq<FileChange>): seq<Edit> {
    seq(|plan|, i requires 0 <= i < |plan| => EditOf(plan[i]))
  }

  predicate Writes(e: Edit) { e.kind.Create? || e.kind.Update? }

  // ----- validation -----

  function Utf8Length(s: string): nat {
    if s == "" then 0
    else
      var c := s[|s| - 1];
      Utf8Length(s[..|s| - 1])
      + if c < '\U{80}' then 1 else if c < '\U{800}' then 2 else if c < '\U{10000}' then 3 else 4
  }

  predicate SafeRelativePath(path: string) {
    var clean := Strip(path);
    var lowered := Lower(clean);
    var names := PathParts(lowered);
    && clean != "" && clean[0] != '/' && '\U{0}' !in clean
    && ".." !in PathParts(clean)
    && clean[|clean| - 1] != '/'
    && (forall b :: b in BLOCKED_PATH_PARTS ==> lowered != b && !StartsWith(lowered, b + "/"))
    && (names == [] || names[|names| - 1] !in BLOCKED_FILENAMES)
  }

  datatype ChangeError = UnsupportedType | UnsafePath | MissingContent | ContentOnDelete | TooLarge

  function CheckChange(c: FileChange): Option<ChangeError> {
    var e := EditOf(c);
    if e.kind.Other? then Some(UnsupportedType)
    else if !SafeRelativePath(c.path) then Some(UnsafePath)
    else if Writes(e) && e.content.None? then Some(MissingContent)
    else if e.kind.Delete? && e.content.Some? && e.content.value != "" then Some(ContentOnDelete)
    else if e.content.Some? && Utf8Length(e.content.value) > MAX_NEW_CONTENT_BYTES then Some(TooLarge)
    else None
  }

  datatype PlanError =
    | NoApproval | NoChanges | TooManyChanges | DuplicatePath(path: string)
    | BadChange(path: string, error: ChangeError)

  predicate DistinctPaths(edits: seq<Edit>) {
    forall i, j :: 0 <= i < j < |edits| ==> edits[i].path != edits[j].path
  }

  predicate Touched(edits: seq<Edit>, path: string) {
    exists i :: 0 <= i < |edits| && edits[i].path == path
  }

  /** One change as the validation loop judges it. */
  datatype Judged = Judged(path: string, shown: string, failure: Option<ChangeError>)

  function Judge(c: FileChange): Judged { Judged(Strip(c.path), c.path, CheckChange(c)) }

  function Judgements(plan: seq<FileChange>): seq<Judged> {
    seq(|plan|, i requires 0 <= i < |plan| => Judge(plan[i]))
  }

  /** The paths are distinct and every change passes its own check. */
  predicate Sound(judged: seq<Judged>) {
    && (forall i, j :: 0 <= i < j < |judged| ==> judged[i].path != judged[j].path)
    && (forall i :: 0 <= i < |judged| ==> judged[i].failure.None?)
  }

  predicate ValidPlan(plan: seq<FileChange>) {
    1 <= |plan| <= MAX_FILE_CHANGES && Sound(Judgements(plan))
  }

  predicate Repeats(judged: seq<Judged>, i: nat)
    requires i < |judged|
  {
    exists k :: 0 <= k < i && judged[k].path == judged[i].path
  }

  /** The i-th change is the first that repeats a path or fails its own check; repeats are looked for first. */
  predicate FirstBadChange(judged: seq<Judged>, i: nat, error: PlanError)
    requires i < |judged|
  {
    && Sound(judged[..i])
    && if Repeats(judged, i) then error == DuplicatePath(judged[i].path)
       else judged[i].failure.Some? && error == BadChange(judged[i].shown, judged[i].failure.value)
  }

  /** What validation says about a plan, case by case. */
  predicate Explains(error: PlanError, files: Option<seq<FileChange>>) {
    match error
    case NoApproval => files.None?
    case NoChanges => files == Some([])
    case TooManyChanges => files.Some? && |files.value| > MAX_FILE_CHANGES
    case _ =>
      files.Some? && |files.value| <= MAX_FILE_CHANGES
      && exists i :: 0 <= i < |files.value| && FirstBadChange(Judgements(files.value), i, error)
  }

  method ValidatePlan(files: Option<seq<FileChange>>) returns (error: Option<PlanError>)
    ensures error.None? <==> files.Some? && ValidPlan(files.value)
    ensures error.Some? ==> Explains(error.value, files)
  {
    if files.None? { return Some(NoApproval); }
    if files.value == [] { return Some(NoChanges); }
    if |files.value| > MAX_FILE_CHANGES { return Some(TooManyChanges); }
    error := FindBadChange(Judgements(files.value));
  }

  method FindBadChange(judged: seq<Judged>) returns (error: Option<PlanError>)
    ensures error.None? <==> Sound(judged)
    ensures error.Some? ==> (error.value.DuplicatePath? || error.value.BadChange?)
                            && exists i :: 0 <= i < |judged| && FirstBadChange(judged, i, error.value)
  {
    var seen: set<string>, i := {}, 0;
    while i < |judged|
      invariant 0 <= i <= |judged| && Sound(judged[..i])
      invariant forall p :: p in seen <==> exists k :: 0 <= k < i && judged[k].path == p
    {
      var item := judged[i];
      if item.path in seen {
        assert Repeats(judged, i) && FirstBadChange(judged, i, DuplicatePath(item.path));
        return Some(DuplicatePath(item.path));
      }
      seen := seen + {item.path};
      if item.failure.Some? {
        assert FirstBadChange(judged, i, BadChange(item.shown, item.failure.value));
        return Some(BadChange(item.shown, item.failure.value));
      }
      i := i + 1;
    }
    assert judged[..i] == judged;
    error := None;
  }

  lemma TouchedExtends(edits: seq<Edit>, e: Edit)
    ensures forall p :: Touched(edits + [e], p) <==> Touched(edits, p) || p == e.path
    ensures DistinctPaths(edits) && !Touched(edits, e.path) ==> DistinctPaths(edits + [e])
  {
    forall p ensures Touched(edits + [e], p) <==> Touched(edits, p) || p == e.path {
      if Touched(edits, p) {
        var i :| 0 <= i < |edits| && edits[i].path == p;
        assert (edits + [e])[i].path == p;
      }
      if p == e.path { assert (edits + [e])[|edits|].path == p; }
    }
  }

  // ----- what validation lets through -----

  /** An idle component names nothing. */
  predicate Idle(part: string) { part == "" || part == "." }

  /** The i-th component is the last that names something. */
  predicate IsName(parts: seq<string>, i: nat) {
    i < |parts| && !Idle(parts[i]) && forall j :: i < j < |parts| ==> Idle(parts[j])
  }

  predicate AllIdle(parts: seq<string>) { forall i :: 0 <= i < |parts| ==> Idle(parts[i]) }

  /** The name is the i-th component, or there is none. */
  predicate NamedAt(parts: seq<string>, names: seq<string>, i: nat) {
    if names == [] then AllIdle(parts) else IsName(parts, i) && parts[i] == names[|names| - 1]
  }

  lemma NameShifts(part: string, rest: seq<string>, names: seq<string>, k: nat) returns (i: nat)
    requires NamedAt(rest, names, k)
    ensures NamedAt([part] + rest, KeptOf(part) + names, i)
  {
    i := if names == [] then 0 else k + 1;
  }

  lemma {:induction false} NameOf(parts: seq<string>) returns (i: nat)
    ensures NamedAt(parts, DropIdle(parts), i)
  {
    i := 0;
    if parts != [] {
      i := NameOf(parts[1..]);
      i := NameShifts(parts[0], parts[1..], DropIdle(parts[1..]), i);
      DropIdleCons(parts[0], parts[1..]);
      assert parts == [parts[0]] + parts[1..];
    }
  }

  lemma NameIsUnique(parts: seq<string>, i: nat, j: nat)
    requires IsName(parts, i) && IsName(parts, j)
    ensures i == j
  {
  }

  lemma {:induction false} EdgesOfSplit(s: string, sep: char)
    ensures var parts := Split(s, sep);
            && (parts[0] == "" <==> s == "" || s[0] == sep)
            && (parts[|parts| - 1] == "" <==> s == "" || s[|s| - 1] == sep)
  {
    if s != "" {
      EdgesOfSplit(s[1..], sep);
      SplitCons(s[0], s[1..], sep);
      assert s == [s[0]] + s[1..];
    }
  }

  lemma TwoParts(s: string, x: string, y: string)
    requires s == x + (['/'] + y) && SepFree(x, '/') && SepFree(y, '/')
    ensures Split(s, '/') == [x, y]
  {
    SplitAround(x, y, '/');
    SplitPlain(x, '/');
    SplitPlain(y, '/');
  }

  lemma WorkflowsSplit(b: string)
    requires b == ".github/workflows"
    ensures Split(b, '/') == [".github", "workflows"]
  {
    TwoParts(b, ".github", "workflows");
  }

  predicate GuardedName(name: string) { name in {".git", "node_modules", "venv", ".venv", "__pycache__"} }

  lemma BlockedNames(b: string)
    ensures b in BLOCKED_PATH_PARTS <==> GuardedName(b) || b == ".github/workflows"
    ensures GuardedName(b) ==> SepFree(b, '/')
  {
  }

  /** The components begin with a directory nobody may write to. */
  predicate Guarded(parts: seq<string>) {
    && parts != []
    && (GuardedName(parts[0]) || (|parts| > 1 && parts[0] == ".github" && parts[1] == "workflows"))
  }

  predicate Under(path: string, b: string) { path == b || StartsWith(path, b + "/") }

  lemma UnderIff(path: string, b: string)
    ensures Under(path, b) <==> Split(b, '/') <= Split(path, '/')
  {
    PrefixIsPartsPrefix(b, path, '/');
  }

  lemma UnderIsGuarded(path: string, b: string)
    requires Under(path, b) && b in BLOCKED_PATH_PARTS
    ensures Guarded(Split(path, '/'))
  {
    UnderIff(path, b);
    BlockedNames(b);
    if b == ".github/workflows" { WorkflowsSplit(b); } else { SplitPlain(b, '/'); }
  }

  lemma GuardedIsUnder(path: string) returns (b: string)
    requires Guarded(Split(path, '/'))
    ensures Under(path, b) && b in BLOCKED_PATH_PARTS
  {
    var parts := Split(path, '/');
    if GuardedName(parts[0]) {
      b := parts[0];
      SplitPlain(b, '/');
    } else {
      b := ".github/workflows";
      WorkflowsSplit(b);
    }
    BlockedNames(b);
    UnderIff(path, b);
  }

  predicate UnderBlocked(path: string) { exists b :: b in BLOCKED_PATH_PARTS && Under(path, b) }

  lemma GuardedIff(path: string)
    ensures Guarded(Split(path, '/')) <==> UnderBlocked(path)
  {
    if Guarded(Split(path, '/')) { var b := GuardedIsUnder(path); }
    if b :| b in BLOCKED_PATH_PARTS && Under(path, b) { UnderIsGuarded(path, b); }
  }

  /** A file that holds secrets. */
  predicate SecretName(name: string) {
    name in {".env", ".env.local", ".env.production", "credentials.py", "secrets.json"}
  }

  lemma SecretNames(name: string)
    ensures name in BLOCKED_FILENAMES <==> SecretName(name)
  {
  }

  /** The name of the path is that of a file that holds secrets. */
  predicate Secret(parts: seq<string>) {
    exists i :: 0 <= i < |parts| && IsName(parts, i) && SecretName(parts[i])
  }

  lemma SecretIff(parts: seq<string>, names: seq<string>, i: nat)
    requires NamedAt(parts, names, i)
    ensures Secret(parts) <==> names != [] && SecretName(names[|names| - 1])
  {
    if j :| 0 <= j < |parts| && IsName(parts, j) && SecretName(parts[j]) {
      if names != [] { NameIsUnique(parts, i, j); }
    }
  }

  /** Safe, said of the components between slashes: relative, downward, not into a guarded directory, not a secret. */
  predicate Safe(path: string) {
    var clean := Strip(path);
    var parts, lowered := Split(clean, '/'), Split(Lower(clean), '/');
    && clean != "" && 0 as char !in clean
    && parts[0] != "" && parts[|parts| - 1] != "" && ".." !in parts
    && !Guarded(lowered) && !Secret(lowered)
  }

  lemma SafePathIff(path: string)
    ensures SafeRelativePath(path) <==> Safe(path)
  {
    var clean := Strip(path);
    var lowered, names := Lower(clean), PathParts(Lower(clean));
    EdgesOfSplit(clean, '/');
    InPathParts(clean, "..");
    GuardedIff(lowered);
    var i := NameOf(Split(lowered, '/'));
    SecretIff(Split(lowered, '/'), names, i);
    if names != [] { SecretNames(names[|names| - 1]); }
  }

  lemma Utf8Appended(s: string, c: char)
    ensures Utf8Length(s + [c]) - Utf8Length(s)
         == if c as int <= 127 then 1 else if c as int <= 2047 then 2 else if c as int <= 65535 then 3 else 4
  {
    assert (s + [c])[..|s|] == s;
  }

  /** A change passes: a known type in any case, a safe path, and content where it belongs, not too much of it. */
  predicate Passes(c: FileChange) {
    var kind := Strip(Lower(c.changeType));
    && kind in {"create", "update", "delete"} && Safe(c.path)
    && (if kind == "delete" then c.newContent.None? || c.newContent.value == "" else c.newContent.Some?)
    && (c.newContent.Some? ==> Utf8Length(c.newContent.value) <= 250_000)
  }

  /** Which changes pass, and which fault is named when there are several. */
  lemma CheckIff(c: FileChange)
    ensures var kind, fault := Strip(Lower(c.changeType)), CheckChange(c);
            && (fault.None? <==> Passes(c))
            && (fault == Some(UnsupportedType) <==> kind !in {"create", "update", "delete"})
            && (fault == Some(UnsafePath) <==> kind in {"create", "update", "delete"} && !Safe(c.path))
            && (fault == Some(MissingContent) <==>
                kind in {"create", "update"} && Safe(c.path) && c.newContent.None?)
            && (fault == Some(ContentOnDelete) <==>
                kind == "delete" && Safe(c.path) && c.newContent.Some? && c.newContent.value != "")
  {
    SafePathIff(c.path);
  }

  /** A plan is valid when it has 1 to 25 changes that all pass, no two for the same path. */
  lemma ValidPlanIff(plan: seq<FileChange>)
    ensures ValidPlan(plan) <==>
            && 1 <= |plan| <= 25 && (forall i :: 0 <= i < |plan| ==> Passes(plan[i]))
            && forall i, j :: 0 <= i < j < |plan| ==> Strip(plan[i].path) != Strip(plan[j].path)
  {
    forall i | 0 <= i < |plan| ensures Judgements(plan)[i].failure.None? <==> Passes(plan[i]) {
      CheckIff(plan[i]);
    }
    forall i | 0 <= i < |plan| ensures Judgements(plan)[i].path == Strip(plan[i].path) {
    }
  }

  // ----- application -----

  /** What the branch must hold before a file is written or deleted. */
  predicate Admits(tree: Tree, e: Edit) {
    if e.kind.Create? then e.path !in tree else e.path in tree
  }

  function Change(tree: Tree, e: Edit): Tree
    requires Writes(e) ==> e.content.Some?
  {
    if Writes(e) then tree[e.path := e.content.value] else tree - {e.path}
  }

  predicate Contentful(edits: seq<Edit>) {
    forall i :: 0 <= i < |edits| ==> Writes(edits[i]) ==> edits[i].content.Some?
  }

  datatype Applied = Applied(tree: Tree, count: nat, ok: bool)

  /** The loop, with the client refusing service from item `outage` on; it stops at the first failure. */
  function Run(tree: Tree, edits: seq<Edit>, outage: nat): (r: Applied)
    requires Contentful(edits)
    ensures r.count <= |edits| && (r.ok ==> r.count == |edits|)
  {
    if edits == [] then Applied(tree, 0, true)
    else
      var earlier, last := Run(tree, edits[..|edits| - 1], outage), edits[|edits| - 1];
      if !earlier.ok || outage < |edits| || !Admits(earlier.tree, last) then earlier.(ok := false)
      else Applied(Change(earlier.tree, last), |edits|, true)
  }

  /** All edits at once: written files hold their content, deleted ones are gone, the rest is as before. */
  ghost predicate ParallelUpdate(before: Tree, edits: seq<Edit>, after: Tree) {
    && (forall i :: 0 <= i < |edits| ==>
          if Writes(edits[i]) then edits[i].path in after && edits[i].content == Some(after[edits[i].path])
          else edits[i].path !in after)
    && (forall p :: !Touched(edits, p) ==> (p in after <==> p in before) && (p in before ==> after[p] == before[p]))
  }

  lemma ParallelUpdateIsUnique(before: Tree, edits: seq<Edit>, one: Tree, two: Tree)
    requires ParallelUpdate(before, edits, one) && ParallelUpdate(before, edits, two)
    ensures one == two
  {
  }

  /** No failure among the first n items, judged on the original tree. */
  predicate Holds(tree: Tree, edits: seq<Edit>, n: nat, outage: nat)
    requires n <= |edits|
  {
    n <= outage && forall i :: 0 <= i < n ==> Admits(tree, edits[i])
  }

  /** Distinct paths: an earlier edit never alters what a later one sees. */
  lemma EditExtends(before: Tree, edits: seq<Edit>, e: Edit, after: Tree)
    requires DistinctPaths(edits + [e]) && (Writes(e) ==> e.content.Some?)
    requires ParallelUpdate(before, edits, after)
    ensures Admits(after, e) <==> Admits(before, e)
    ensures ParallelUpdate(before, edits + [e], Change(after, e))
  {
    TouchedExtends(edits, e);
    forall i | 0 <= i < |edits| ensures edits[i].path != e.path {
      assert (edits + [e])[i].path != (edits + [e])[|edits|].path;
    }
  }

  /** What a run that stopped after `count` items has done, and whether it met a failure there. */
  ghost predicate Outcome(tree: Tree, edits: seq<Edit>, outage: nat, r: Applied) {
    && r.count <= |edits| && (r.ok ==> r.count == |edits|)
    && (r.ok <==> Holds(tree, edits, |edits|, outage))
    && Holds(tree, edits, r.count, outage)
    && (!r.ok ==> r.count < |edits| && !Holds(tree, edits, r.count + 1, outage))
    && ParallelUpdate(tree, edits[..r.count], r.tree)
  }

  lemma OutcomeAfterSuccess(tree: Tree, front: seq<Edit>, last: Edit, outage: nat, earlier: Applied)
    requires DistinctPaths(front + [last]) && (Writes(last) ==> last.content.Some?)
    requires Outcome(tree, front, outage, earlier) && earlier.ok
    ensures var go := |front| < outage && Admits(earlier.tree, last);
            Outcome(tree, front + [last], outage,
                    if go then Applied(Change(earlier.tree, last), |front| + 1, true) else earlier.(ok := false))
  {
    assert front[..earlier.count] == front;
    EditExtends(tree, front, last, earlier.tree);
    HoldsExtends(tree, front, last, outage);
    assert (front + [last])[..|front|] == front && (front + [last])[..|front| + 1] == front + [last];
  }

  lemma OutcomeAfterFailure(tree: Tree, front: seq<Edit>, last: Edit, outage: nat, earlier: Applied)
    requires Outcome(tree, front, outage, earlier) && !earlier.ok
    ensures Outcome(tree, front + [last], outage, earlier)
  {
    HoldsOfLonger(tree, front, last, earlier.count, outage);
    HoldsOfLonger(tree, front, last, earlier.count + 1, outage);
    HoldsShrinks(tree, front + [last], earlier.count + 1, outage);
    assert (front + [last])[..earlier.count] == front[..earlier.count];
  }

  /**
   The loop succeeds exactly when no item fails on the ORIGINAL branch; it stops at
   the first item that does, leaving the parallel update by exactly the items before it.
   */
  lemma {:induction false} RunIsParallelUpdate(tree: Tree, edits: seq<Edit>, outage: nat)
    requires DistinctPaths(edits) && Contentful(edits)
    ensures Outcome(tree, edits, outage, Run(tree, edits, outage))
  {
    if edits != [] {
      var front, last := edits[..|edits| - 1], edits[|edits| - 1];
      RunIsParallelUpdate(tree, front, outage);
      var earlier := Run(tree, front, outage);
      assert front + [last] == edits;
      if earlier.ok {
        OutcomeAfterSuccess(tree, front, last, outage, earlier);
      } else {
        OutcomeAfterFailure(tree, front, last, outage, earlier);
      }
    }
  }

  /** A new file must not be there, any other must; nothing may refuse service. */
  predicate Applicable(tree: Tree, edits: seq<Edit>, outage: nat) {
    && |edits| <= outage
    && forall i :: 0 <= i < |edits| ==> (edits[i].kind == Create <==> edits[i].path !in tree)
  }

  /** Which runs succeed, and what every path of the branch then holds. */
  lemma RunEffect(tree: Tree, edits: seq<Edit>, outage: nat, p: string)
    requires DistinctPaths(edits) && Contentful(edits)
    ensures var r := Run(tree, edits, outage);
            && (r.ok <==> Applicable(tree, edits, outage))
            && (r.ok && (forall i :: 0 <= i < |edits| ==> edits[i].path != p) ==>
                  (p in r.tree <==> p in tree) && (p in tree ==> r.tree[p] == tree[p]))
            && (r.ok ==> forall i :: 0 <= i < |edits| && edits[i].path == p ==>
                           if edits[i].kind == Create || edits[i].kind == Update then
                             p in r.tree && Some(r.tree[p]) == edits[i].content
                           else p !in r.tree)
  {
    RunIsParallelUpdate(tree, edits, outage);
    var r := Run(tree, edits, outage);
    assert edits[..|edits|] == edits;
    assert (forall i :: 0 <= i < |edits| ==> edits[i].path != p) ==> !Touched(edits, p);
  }

  lemma HoldsExtends(tree: Tree, edits: seq<Edit>, e: Edit, outage: nat)
    ensures Holds(tree, edits + [e], |edits| + 1, outage)
       <==> Holds(tree, edits, |edits|, outage) && |edits| < outage && Admits(tree, e)
    ensures Holds(tree, edits + [e], |edits|, outage) <==> Holds(tree, edits, |edits|, outage)
  {
    assert (edits + [e])[|edits|] == e;
    assert forall i :: 0 <= i < |edits| ==> (edits + [e])[i] == edits[i];
  }

  lemma HoldsOfLonger(tree: Tree, edits: seq<Edit>, e: Edit, n: nat, outage: nat)
    requires n <= |edits|
    ensures Holds(tree, edits + [e], n, outage) <==> Holds(tree, edits, n, outage)
  {
    assert forall i :: 0 <= i < n ==> (edits + [e])[i] == edits[i];
  }

  lemma HoldsShrinks(tree: Tree, edits: seq<Edit>, n: nat, outage: nat)
    requires n <= |edits|
    ensures Holds(tree, edits, |edits|, outage) ==> Holds(tree, edits, n, outage)
  {
  }

  lemma SameMembers(one: seq<Edit>, two: seq<Edit>)
    requires multiset(one) == multiset(two)
    ensures forall i :: 0 <= i < |one| ==> one[i] in two
  {
    forall i | 0 <= i < |one| ensures one[i] in two {
      assert one[i] in multiset(one);
    }
  }

  lemma ParallelUpdateOfSameMembers(tree: Tree, one: seq<Edit>, two: seq<Edit>, after: Tree)
    requires forall i :: 0 <= i < |one| ==> one[i] in two
    requires forall i :: 0 <= i < |two| ==> two[i] in one
    requires ParallelUpdate(tree, two, after)
    ensures ParallelUpdate(tree, one, after)
  {
  }

  lemma SameTree(tree: Tree, one: seq<Edit>, two: seq<Edit>, r: Applied, s: Applied)
    requires Outcome(tree, one, |one|, r) && Outcome(tree, two, |two|, s) && r.ok && s.ok
    requires forall i :: 0 <= i < |one| ==> one[i] in two
    requires forall i :: 0 <= i < |two| ==> two[i] in one
    ensures r.tree == s.tree
  {
    assert one[..r.count] == one && two[..s.count] == two;
    ParallelUpdateOfSameMembers(tree, one, two, s.tree);
    ParallelUpdateIsUnique(tree, one, r.tree, s.tree);
  }

  /** The order of the plan does not matter, for the outcome or for the tree of a successful run. */
  lemma OrderIsIrrelevant(tree: Tree, one: seq<Edit>, two: seq<Edit>)
    requires DistinctPaths(one) && Contentful(one) && DistinctPaths(two) && Contentful(two)
    requires multiset(one) == multiset(two)
    ensures var r, s := Run(tree, one, |one|), Run(tree, two, |two|);
            (r.ok <==> s.ok) && (r.ok ==> r.tree == s.tree)
  {
    var r, s := Run(tree, one, |one|), Run(tree, two, |two|);
    RunIsParallelUpdate(tree, one, |one|);
    RunIsParallelUpdate(tree, two, |two|);
    SameMembers(one, two);
    SameMembers(two, one);
    OkOfSameMembers(tree, one, two);
    OkOfSameMembers(tree, two, one);
    if r.ok && s.ok { SameTree(tree, one, two, r, s); }
  }

  lemma OkOfSameMembers(tree: Tree, one: seq<Edit>, two: seq<Edit>)
    requires forall i :: 0 <= i < |two| ==> two[i] in one
    ensures Holds(tree, one, |one|, |one|) ==> Holds(tree, two, |two|, |two|)
  {
  }

  // ----- the worker -----

  datatype Item = Item(path: string, kind: Kind)

  datatype Result = Result(ok: bool, written: nat, deleted: nat, items: seq<Item>)

  lemma ValidPlanIsContentful(plan: seq<FileChange>)
    requires ValidPlan(plan)
    ensures Contentful(Edits(plan)) && DistinctPaths(Edits(plan))
    ensures forall i :: 0 <= i < |plan| ==> !Edits(plan)[i].kind.Other?
  {
    forall i | 0 <= i < |plan|
      ensures (Writes(EditOf(plan[i])) ==> plan[i].newContent.Some?) && !EditOf(plan[i]).kind.Other?
    {
      assert Judgements(plan)[i].failure.None?;
    }
    forall i, j | 0 <= i < j < |plan| ensures Edits(plan)[i].path != Edits(plan)[j].path {
      assert Judgements(plan)[i].path != Judgements(plan)[j].path;
    }
  }

  predicate Is(c: FileChange, kind: string) { Strip(Lower(c.changeType)) == kind }

  /** No service is refused, new files are not there yet, and all others are. */
  predicate Feasible(tree: Tree, plan: seq<FileChange>, outage: nat) {
    && |plan| <= outage
    && forall i :: 0 <= i < |plan| ==> (Is(plan[i], "create") <==> Strip(plan[i].path) !in tree)
  }

  lemma EditIs(c: FileChange)
    requires Passes(c)
    ensures var e := EditOf(c);
            && e.path == Strip(c.path) && e.content == c.newContent && (e.kind == Create <==> Is(c, "create"))
            && (e.kind == Delete <==> Is(c, "delete")) && (e.kind == Update <==> Is(c, "update"))
  {
  }

  /** Applying a valid plan, said of the plan itself: when it succeeds, and what the branch then holds. */
  lemma PlanEffect(tree: Tree, plan: seq<FileChange>, outage: nat, p: string)
    requires ValidPlan(plan) && Contentful(Edits(plan))
    ensures var r := Run(tree, Edits(plan), outage);
            && (r.ok <==> Feasible(tree, plan, outage))
            && (r.ok && (forall i :: 0 <= i < |plan| ==> Strip(plan[i].path) != p) ==>
                  (p in r.tree <==> p in tree) && (p in tree ==> r.tree[p] == tree[p]))
            && (r.ok ==> forall i :: 0 <= i < |plan| && Strip(plan[i].path) == p ==>
                           if Is(plan[i], "delete") then p !in r.tree
                           else p in r.tree && Some(r.tree[p]) == plan[i].newContent)
  {
    var edits := Edits(plan);
    ValidPlanIsContentful(plan);
    ValidPlanIff(plan);
    RunEffect(tree, edits, outage, p);
    forall i | 0 <= i < |plan| ensures edits[i] == EditOf(plan[i]) && Passes(plan[i]) {
      EditIs(plan[i]);
    }
    forall i | 0 <= i < |plan|
      ensures (edits[i].kind == Create <==> Is(plan[i], "create")) && edits[i].path == Strip(plan[i].path)
              && (edits[i].kind == Delete <==> Is(plan[i], "delete")) && edits[i].content == plan[i].newContent
    {
      EditIs(plan[i]);
    }
  }

  /** How many of the first n edits write a file. */
  function Written(edits: seq<Edit>, n: nat): nat
    requires n <= |edits|
  {
    if n == 0 then 0 else Written(edits, n - 1) + if Writes(edits[n - 1]) then 1 else 0
  }

  predicate WritesAt(edits: seq<Edit>, i: int) { 0 <= i < |edits| && edits[i].kind in {Create, Update} }

  function WritesBefore(edits: seq<Edit>, n: nat): set<int> { set i | 0 <= i < n && WritesAt(edits, i) }

  lemma WritesGrow(edits: seq<Edit>, n: nat)
    ensures WritesBefore(edits, n + 1)
         == if WritesAt(edits, n) then WritesBefore(edits, n) + {n as int} else WritesBefore(edits, n)
  {
  }

  lemma {:induction false} WrittenIs(edits: seq<Edit>, n: nat)
    requires n <= |edits|
    ensures Written(edits, n) == |WritesBefore(edits, n)|
  {
    if n > 0 {
      WrittenIs(edits, n - 1);
      WritesGrow(edits, n - 1);
    }
  }

  /** The remote branch, changed by one commit per file. */
  class Branch {
    var tree: Tree
    const present: bool

    constructor (tree: Tree, present: bool)
      ensures this.tree == tree && this.present == present
    {
      this.tree, this.present := tree, present;
    }

    method Commit(edit: Edit)
      requires Writes(edit) ==> edit.content.Some?
      modifies this
      ensures tree == Change(old(tree), edit)
    {
      if edit.kind.Create? || edit.kind.Update? {
        tree := tree[edit.path := edit.content.value];
      } else {
        tree := tree - {edit.path};
      }
    }

    /** One item: the client may refuse service, and the branch may refuse the edit. */
    method ApplyOne(edit: Edit, available: bool) returns (ok: bool)
      requires Writes(edit) ==> edit.content.Some?
      modifies this
      ensures ok <==> available && Admits(old(tree), edit)
      ensures tree == if ok then Change(old(tree), edit) else old(tree)
    {
      if !available { return false; }
      if edit.kind.Create? && edit.path in tree { return false; }
      if !edit.kind.Create? && edit.path !in tree { return false; }
      Commit(edit);
      ok := true;
    }

    /** A failure raises: the counters are lost and the branch keeps the changes made so far. */
    method ApplyFileChanges(edits: seq<Edit>, outage: nat) returns (r: Result)
      requires Contentful(edits)
      modifies this
      ensures !present ==> !r.ok && tree == old(tree)
      ensures present ==> var run := Run(old(tree), edits, outage); tree == run.tree && r.ok == run.ok
      ensures r.ok ==> Reports(r, edits, |edits|)
    {
      if !present { return Result(false, 0, 0, []); }
      r := Result(true, 0, 0, []);
      var i := 0;
      while i < |edits|
        invariant 0 <= i <= |edits| && r.ok && Reports(r, edits, i)
        invariant Run(old(tree), edits[..i], outage) == Applied(tree, i, true)
      {
        RunOneMore(old(tree), edits, i, outage);
        var ok := ApplyOne(edits[i], i < outage);
        if !ok {
          RunStops(old(tree), edits, outage, i + 1);
          return Result(false, 0, 0, []);
        }
        r := Extended(r, edits[i]);
        i := i + 1;
      }
      assert edits[..i] == edits;
    }
  }

  /** The counters and the item list after one more edit. */
  function Extended(r: Result, e: Edit): Result {
    var items := r.items + [Item(e.path, e.kind)];
    if Writes(e) then Result(r.ok, r.written + 1, r.deleted, items) else Result(r.ok, r.written, r.deleted + 1, items)
  }

  /** The result counts the files written and deleted by the first n edits and lists them in order. */
  predicate Reports(r: Result, edits: seq<Edit>, n: nat)
    requires n <= |edits|
  {
    && r.written == Written(edits, n) && r.written + r.deleted == |r.items| == n
    && forall i :: 0 <= i < n ==> r.items[i] == Item(edits[i].path, edits[i].kind)
  }

  /** One turn of the loop, from a run that has not failed yet. */
  lemma RunOneMore(tree: Tree, edits: seq<Edit>, i: nat, outage: nat)
    requires i < |edits| && Contentful(edits) && Run(tree, edits[..i], outage).ok
    ensures var r := Run(tree, edits[..i], outage);
            Run(tree, edits[..i + 1], outage)
            == if outage <= i || !Admits(r.tree, edits[i]) then r.(ok := false)
               else Applied(Change(r.tree, edits[i]), i + 1, true)
  {
    assert edits[..i + 1][..i] == edits[..i];
  }

  /** Once the loop has stopped, the rest of the plan changes nothing. */
  lemma {:induction false} RunStops(tree: Tree, edits: seq<Edit>, outage: nat, n: nat)
    requires n <= |edits| && Contentful(edits)
    requires !Run(tree, edits[..n], outage).ok
    ensures Run(tree, edits, outage) == Run(tree, edits[..n], outage)
    decreases |edits|
  {
    if n < |edits| {
      assert edits[..|edits| - 1][..n] == edits[..n];
      RunStops(tree, edits[..|edits| - 1], outage, n);
    } else {
      assert edits[..n] == edits;
    }
  }
}
