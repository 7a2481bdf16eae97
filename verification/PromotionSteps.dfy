/**
 Promotion and revocation as single file-system steps. A tree is filled under a
 hidden name, file by file, validated there, and appears under its attempt name
 by one rename; revocation takes it away by one rename before anything in it is
 removed. A crash may fall between any two steps and leaves hidden remains.

 The copy compares each file with its declaration; the validation looks at names
 and JSON only. That a published tree is complete follows from the two together.
 */
module PromotionSteps {
  import opened Wrappers
  import opened ArtifactTrees
  import opened TreePromotion

  type Tree = map<Path, Content>

  datatype Declaration = Declaration(artifacts: seq<WorkerArtifact>, expected: seq<Expected>)

  /** The tree holds exactly the declared files, with their declared bytes and JSON values. */
  ghost predicate Complete(tree: Tree, d: Declaration) {
    HoldsExactly(tree, d.artifacts, d.expected)
  }

  // ------------------------------------------- the two checks of a promotion

  /** The comparison the copy makes for one file. */
  ghost predicate DeclaredFile(path: Path, content: Content, d: Declaration) {
    exists a :: a in d.artifacts && a.path == path && AsDeclared(a, content)
  }

  ghost predicate DeclaredPath(path: Path, d: Declaration) {
    exists a :: a in d.artifacts && a.path == path
  }

  /** What holds of a tree while nothing was copied that was refused. */
  ghost predicate CopiedSoFar(tree: Tree, d: Declaration) {
    forall p :: p in tree ==> DeclaredFile(p, tree[p], d)
  }

  ghost predicate ExpectedFile(path: Path, content: Content, d: Declaration) {
    exists e :: e in d.expected && e.path == path && JsonOk(e, content)
  }

  /** The validation of the prepared tree: every file expected, with its JSON values, and none missing. */
  ghost predicate Prepared(tree: Tree, d: Declaration) {
    && (forall p :: p in tree ==> ExpectedFile(p, tree[p], d))
    && (forall e :: e in d.expected ==> e.path in tree)
  }

  /** What a revocation compares before its rename: the validated tree against the exact references it was given. */
  ghost predicate Revocable(tree: Tree, d: Declaration) {
    Prepared(tree, d) && CopiedSoFar(tree, d)
  }

  lemma WorkersByPath(d: Declaration, a: WorkerArtifact, b: WorkerArtifact)
    requires WorkersDistinct(d.artifacts) && a in d.artifacts && b in d.artifacts && a.path == b.path
    ensures a == b
  {
    var i :| 0 <= i < |d.artifacts| && d.artifacts[i] == a;
    var j :| 0 <= j < |d.artifacts| && d.artifacts[j] == b;
    assert i == j;
  }

  lemma ExpectedByPath(d: Declaration, a: Expected, b: Expected)
    requires ExpectedDistinct(d.expected) && a in d.expected && b in d.expected && a.path == b.path
    ensures a == b
  {
    var i :| 0 <= i < |d.expected| && d.expected[i] == a;
    var j :| 0 <= j < |d.expected| && d.expected[j] == b;
    assert i == j;
  }

  /** With agreeing manifests, a tree that passed both checks is complete. */
  lemma CheckedIsComplete(tree: Tree, d: Declaration)
    requires ManifestsAgree(d.artifacts, d.expected) && CopiedSoFar(tree, d) && Prepared(tree, d)
    ensures Complete(tree, d)
  {
    forall a | a in d.artifacts ensures a.path in tree && AsDeclared(a, tree[a.path]) {
      assert Descriptor(a.role, a.path, a.media) in WorkerDescriptors(d.artifacts);
      assert Descriptor(a.role, a.path, a.media) in ExpectedDescriptors(d.expected);
      var b :| b in d.artifacts && b.path == a.path && AsDeclared(b, tree[a.path]);
      WorkersByPath(d, a, b);
    }
    forall p | p in tree ensures exists a :: a in d.artifacts && a.path == p {
      assert DeclaredFile(p, tree[p], d);
    }
    forall e | e in d.expected ensures e.path in tree && JsonOk(e, tree[e.path]) {
      var b :| b in d.expected && b.path == e.path && JsonOk(b, tree[e.path]);
      ExpectedByPath(d, e, b);
    }
  }

  /** The tree visits decide these very checks: an accepted copy and an accepted prepared tree pass them. */
  lemma VisitsDecideTheChecks(entries: seq<Entry>, m: Manifest, d: Declaration)
    requires ManifestOf(m, d.artifacts, d.expected)
    ensures CopyOk(entries, [], m) ==> CopiedSoFar(Files(entries, []), d)
    ensures PreparedOk(entries, [], m) && m.expected.Keys <= Files(entries, []).Keys ==> Prepared(Files(entries, []), d)
  {
    var files := Files(entries, []);
    if CopyOk(entries, [], m) {
      CopiedAsDeclared(entries, [], m);
      forall p | p in files ensures DeclaredFile(p, files[p], d) {
        assert m.workers[p] in d.artifacts;
      }
    }
    if PreparedOk(entries, [], m) {
      PreparedMeetsJson(entries, [], m);
      forall p | p in files ensures ExpectedFile(p, files[p], d) {
        assert m.expected[p] in d.expected;
      }
    }
  }

  datatype Name = Attempt(id: string) | Hidden(nonce: nat)

  /** A promotion or revocation under way; its tree is under its own hidden name. */
  datatype Work =
    | Copying(nonce: nat, attempt: string, declaration: Declaration)
    | Validated(nonce: nat, attempt: string, declaration: Declaration)
    | Removing(nonce: nat)

  datatype State = State(
    trees: map<Name, Tree>,
    works: map<nat, Work>,
    declared: map<string, Declaration>)   // what each attempt was last promoted with

  const INITIAL := State(map[], map[], map[])

  datatype Step =
    | Begin(w: nat, nonce: nat, attempt: string, declaration: Declaration)
    | CopyFile(w: nat, path: Path, content: Content)
    | Validate(w: nat)
    | GiveUp(w: nat)                         // any error before the rename: clean up
    | Publish(w: nat)
    | Revoke(w: nat, nonce: nat, attempt: string, declaration: Declaration)
    | RemoveFile(w: nat, path: Path)
    | RemoveTree(w: nat)
    | Crash

  function SetWork(s: State, w: nat, work: Work): State {
    s.(works := s.works[w := work])
  }

  function Ended(s: State, w: nat): State {
    s.(works := s.works - {w})
  }

  /** One step; a step that is not enabled changes nothing. */
  ghost function Next(s: State, step: Step): State {
    match step
    case Begin(w, nonce, attempt, declaration) =>
      if w in s.works || Hidden(nonce) in s.trees || Attempt(attempt) in s.trees
         || !ManifestsAgree(declaration.artifacts, declaration.expected)
      then s
      else SetWork(s.(trees := s.trees[Hidden(nonce) := map[]]), w, Copying(nonce, attempt, declaration))
    case Revoke(w, nonce, attempt, declaration) =>
      if w in s.works || Hidden(nonce) in s.trees || Attempt(attempt) !in s.trees || !Revocable(s.trees[Attempt(attempt)], declaration)
      then s
      else SetWork(s.(trees := (s.trees - {Attempt(attempt)})[Hidden(nonce) := s.trees[Attempt(attempt)]]), w, Removing(nonce))
    case Crash => s.(works := map[])
    case _ => if step.w in s.works then WorkStep(s, step.w, s.works[step.w], step) else s
  }

  /** What a step does inside its own hidden tree: fill it, decide about it, or empty it. */
  ghost function InsideStep(tree: Tree, work: Work, step: Step): (Tree, Work) {
    match (work, step)
    case (Copying(nonce, _, d), CopyFile(_, path, content)) =>
      if !DeclaredPath(path, d) then (tree, Removing(nonce))
      else if DeclaredFile(path, content, d) then (tree[path := content], work)
      else (tree[path := content], Removing(nonce))
    case (Copying(nonce, attempt, d), Validate(_)) =>
      (tree, if Prepared(tree, d) then Validated(nonce, attempt, d) else Removing(nonce))
    case (Copying(nonce, _, _), GiveUp(_)) => (tree, Removing(nonce))
    case (Validated(nonce, _, _), GiveUp(_)) => (tree, Removing(nonce))
    case (Removing(_), RemoveFile(_, path)) => (tree - {path}, work)
    case _ => (tree, work)
  }

  ghost function WorkStep(s: State, w: nat, work: Work, step: Step): State {
    var hidden := Hidden(work.nonce);
    if hidden !in s.trees then s
    else if work.Validated? && step.Publish? then
      if Attempt(work.attempt) in s.trees then SetWork(s, w, Removing(work.nonce))
      else Ended(s, w).(trees := (s.trees - {hidden})[Attempt(work.attempt) := s.trees[hidden]],
                        declared := s.declared[work.attempt := work.declaration])
    else if work.Removing? && step.RemoveTree? then Ended(s, w).(trees := s.trees - {hidden})
    else
      var (tree, work') := InsideStep(s.trees[hidden], work, step);
      SetWork(s, w, work').(trees := s.trees[hidden := tree])
  }

  ghost function Run(s: State, steps: seq<Step>): State
    decreases |steps|
  {
    if steps == [] then s else Run(Next(s, steps[0]), steps[1..])
  }

  // ----------------------------------------------------------- invariant

  /** What a tree under a hidden name satisfies at each stage of its promotion. */
  ghost predicate TreeFits(tree: Tree, work: Work) {
    match work
    case Copying(_, _, d) => ManifestsAgree(d.artifacts, d.expected) && CopiedSoFar(tree, d)
    case Validated(_, _, d) => Complete(tree, d)
    case Removing(_) => true
  }

  ghost predicate WorkFits(s: State, work: Work) {
    Hidden(work.nonce) in s.trees && TreeFits(s.trees[Hidden(work.nonce)], work)
  }

  ghost predicate WorksFit(s: State) {
    && (forall w :: w in s.works ==> WorkFits(s, s.works[w]))
    && (forall v, w :: v in s.works && w in s.works && v != w ==> s.works[v].nonce != s.works[w].nonce)
  }

  ghost predicate AttemptsFit(s: State) {
    forall id :: Attempt(id) in s.trees ==> id in s.declared && Complete(s.trees[Attempt(id)], s.declared[id])
  }

  ghost predicate Inv(s: State) {
    WorksFit(s) && AttemptsFit(s)
  }

  /** A visible tree is left alone, or gone as a whole. */
  ghost predicate VisibleTreesStay(s: State, s': State) {
    forall id :: Attempt(id) in s.trees && Attempt(id) in s'.trees ==> s'.trees[Attempt(id)] == s.trees[Attempt(id)]
  }

  lemma InsideStepFits(tree: Tree, work: Work, step: Step)
    requires TreeFits(tree, work)
    ensures var (tree', work') := InsideStep(tree, work, step); TreeFits(tree', work') && work'.nonce == work.nonce
  {
    if work.Copying? && step.Validate? && Prepared(tree, work.declaration) {
      CheckedIsComplete(tree, work.declaration);
    }
  }

  /** A hidden tree and the work on it changed; nobody else is concerned. */
  lemma InsideKeepsInv(s: State, w: nat, tree: Tree, work: Work)
    requires Inv(s) && w in s.works && work.nonce == s.works[w].nonce && TreeFits(tree, work)
    ensures var s' := SetWork(s, w, work).(trees := s.trees[Hidden(work.nonce) := tree]); Inv(s') && VisibleTreesStay(s, s')
  {
    var s' := SetWork(s, w, work).(trees := s.trees[Hidden(work.nonce) := tree]);
    forall v | v in s'.works ensures WorkFits(s', s'.works[v]) {
      if v != w {
        assert WorkFits(s, s.works[v]) && s.works[v].nonce != s.works[w].nonce;
      }
    }
    assert WorksFit(s');
  }

  /** The work is over, and its hidden name is free again. */
  lemma EndKeepsWorks(s: State, s': State, w: nat)
    requires WorksFit(s) && w in s.works && s'.works == s.works - {w}
    requires forall n :: n != s.works[w].nonce && Hidden(n) in s.trees ==> Hidden(n) in s'.trees && s'.trees[Hidden(n)] == s.trees[Hidden(n)]
    ensures WorksFit(s')
  {
    forall v | v in s'.works ensures WorkFits(s', s'.works[v]) {
      assert WorkFits(s, s.works[v]) && s.works[v].nonce != s.works[w].nonce;
    }
  }

  lemma WorkStepKeepsInv(s: State, w: nat, step: Step)
    requires Inv(s) && w in s.works
    ensures var s' := WorkStep(s, w, s.works[w], step); Inv(s') && VisibleTreesStay(s, s')
  {
    var s', work := WorkStep(s, w, s.works[w], step), s.works[w];
    var hidden := Hidden(work.nonce);
    assert WorkFits(s, work);
    if (work.Validated? && step.Publish? && Attempt(work.attempt) !in s.trees) || (work.Removing? && step.RemoveTree?) {
      EndKeepsWorks(s, s', w);
    } else if work.Validated? && step.Publish? {
      assert s.trees[hidden := s.trees[hidden]] == s.trees;
      InsideKeepsInv(s, w, s.trees[hidden], Removing(work.nonce));
    } else {
      InsideStepFits(s.trees[hidden], work, step);
      InsideKeepsInv(s, w, InsideStep(s.trees[hidden], work, step).0, InsideStep(s.trees[hidden], work, step).1);
    }
  }

  /** A new work takes a free hidden name; no other hidden tree changes. */
  lemma NewWorkKeepsWorks(s: State, s': State, w: nat, work: Work, tree: Tree)
    requires WorksFit(s) && w !in s.works && s'.works == s.works[w := work]
    requires Hidden(work.nonce) !in s.trees && Hidden(work.nonce) in s'.trees && s'.trees[Hidden(work.nonce)] == tree
    requires TreeFits(tree, work)
    requires forall n :: Hidden(n) in s.trees ==> Hidden(n) in s'.trees && s'.trees[Hidden(n)] == s.trees[Hidden(n)]
    ensures WorksFit(s')
  {
    forall v | v in s'.works ensures WorkFits(s', s'.works[v]) && (v != w ==> s'.works[v].nonce != work.nonce) {
      if v != w {
        assert WorkFits(s, s.works[v]);
      }
    }
  }

  lemma NewWorkKeepsInv(s: State, step: Step)
    requires Inv(s) && (step.Begin? || step.Revoke?)
    ensures Inv(Next(s, step)) && VisibleTreesStay(s, Next(s, step))
  {
    var s' := Next(s, step);
    if step.w !in s.works && step.w in s'.works {
      NewWorkKeepsWorks(s, s', step.w, s'.works[step.w], s'.trees[Hidden(step.nonce)]);
    }
  }

  lemma NextKeepsInv(s: State, step: Step)
    requires Inv(s)
    ensures Inv(Next(s, step)) && VisibleTreesStay(s, Next(s, step))
  {
    if step.Begin? || step.Revoke? {
      NewWorkKeepsInv(s, step);
    } else if !step.Crash? && step.w in s.works {
      WorkStepKeepsInv(s, step.w, step);
    }
  }

  lemma {:induction false} RunKeepsInv(s: State, steps: seq<Step>)
    requires Inv(s)
    ensures Inv(Run(s, steps))
    decreases |steps|
  {
    if steps != [] {
      NextKeepsInv(s, steps[0]);
      RunKeepsInv(Next(s, steps[0]), steps[1..]);
    }
  }

  // ------------------------------------------------------------ theorems

  /**
   At every step of every run, crashes included, a tree under an attempt name
   holds exactly the files it was declared with; and the next step leaves it as
   it is or takes the whole of it away.
   */
  lemma NeverPartlyVisible(steps: seq<Step>, next: Step, id: string)
    requires Attempt(id) in Run(INITIAL, steps).trees
    ensures var s := Run(INITIAL, steps); var s' := Next(s, next);
            && id in s.declared && Complete(s.trees[Attempt(id)], s.declared[id])
            && (Attempt(id) in s'.trees ==> s'.trees[Attempt(id)] == s.trees[Attempt(id)])
  {
    RunKeepsInv(INITIAL, steps);
    NextKeepsInv(Run(INITIAL, steps), next);
  }

  /** A validated promotion does appear, whole, in one step. */
  lemma PublishShowsTheWholeTree(steps: seq<Step>, w: nat)
    requires var s := Run(INITIAL, steps);
             w in s.works && s.works[w].Validated? && Attempt(s.works[w].attempt) !in s.trees
    ensures var s := Run(INITIAL, steps); var work := s.works[w]; var s' := Next(s, Publish(w));
            && Attempt(work.attempt) in s'.trees && Hidden(work.nonce) !in s'.trees
            && Hidden(work.nonce) in s.trees && s'.trees[Attempt(work.attempt)] == s.trees[Hidden(work.nonce)]
            && Complete(s'.trees[Attempt(work.attempt)], work.declaration)
  {
    RunKeepsInv(INITIAL, steps);
    assert WorkFits(Run(INITIAL, steps), Run(INITIAL, steps).works[w]);
  }

  // ------------------------------------------------ every tree can be shown

  ghost predicate Reachable(s: State) {
    exists steps :: Run(INITIAL, steps) == s
  }

  lemma {:induction false} RunThenStep(s: State, steps: seq<Step>, step: Step)
    ensures Run(s, steps + [step]) == Next(Run(s, steps), step)
    decreases |steps|
  {
    if steps == [] {
      assert [step][1..] == [] && Run(Next(s, step), []) == Next(s, step);
      assert [] + [step] == [step];
    } else {
      assert (steps + [step])[1..] == steps[1..] + [step];
      RunThenStep(Next(s, steps[0]), steps[1..], step);
    }
  }

  lemma StepIsReachable(s: State, step: Step)
    requires Reachable(s)
    ensures Reachable(Next(s, step))
  {
    var steps :| Run(INITIAL, steps) == s;
    RunThenStep(INITIAL, steps, step);
  }

  /** One promotion under way, with `tree` copied so far. */
  function CopyingState(d: Declaration, id: string, tree: Tree): State {
    State(map[Hidden(0) := tree], map[0 := Copying(0, id, d)], map[])
  }

  lemma CopyOneMore(d: Declaration, id: string, tree: Tree, path: Path, content: Content)
    requires DeclaredFile(path, content, d) && Reachable(CopyingState(d, id, tree))
    ensures Reachable(CopyingState(d, id, tree[path := content]))
  {
    var s := CopyingState(d, id, tree);
    assert DeclaredPath(path, d);
    StepIsReachable(s, CopyFile(0, path, content));
    assert s.works[0 := s.works[0]] == s.works;
    assert Next(s, CopyFile(0, path, content)) == CopyingState(d, id, tree[path := content]);
  }

  /** File by file, any tree of declared files can be copied. */
  lemma {:induction false} TreeCanBeCopied(d: Declaration, id: string, tree: Tree)
    requires ManifestsAgree(d.artifacts, d.expected) && CopiedSoFar(tree, d)
    ensures Reachable(CopyingState(d, id, tree))
    decreases tree.Keys
  {
    if tree == map[] {
      assert Run(INITIAL, []) == INITIAL;
      StepIsReachable(INITIAL, Begin(0, 0, id, d));
    } else {
      var path :| path in tree;
      var rest := tree - {path};
      TreeCanBeCopied(d, id, rest);
      CopyOneMore(d, id, rest, path, tree[path]);
      assert rest[path := tree[path]] == tree;
    }
  }

  lemma CompleteIsChecked(tree: Tree, d: Declaration)
    requires ManifestsAgree(d.artifacts, d.expected) && Complete(tree, d)
    ensures CopiedSoFar(tree, d) && Prepared(tree, d)
  {
    forall p | p in tree ensures DeclaredFile(p, tree[p], d) && ExpectedFile(p, tree[p], d) {
      var a :| a in d.artifacts && a.path == p;
      assert AsDeclared(a, tree[p]);
      assert Descriptor(a.role, a.path, a.media) in WorkerDescriptors(d.artifacts);
      assert Descriptor(a.role, a.path, a.media) in ExpectedDescriptors(d.expected);
      var e :| e in d.expected && Descriptor(e.role, e.path, e.media) == Descriptor(a.role, a.path, a.media);
      assert JsonOk(e, tree[e.path]);
    }
  }

  /** From the start: every complete tree of agreeing manifests can become visible under its attempt name. */
  lemma EveryCompleteTreeCanBeShown(d: Declaration, id: string, tree: Tree)
    requires ManifestsAgree(d.artifacts, d.expected) && Complete(tree, d)
    ensures exists s :: Reachable(s) && Attempt(id) in s.trees && s.trees[Attempt(id)] == tree
  {
    CompleteIsChecked(tree, d);
    TreeCanBeCopied(d, id, tree);
    var s := CopyingState(d, id, tree);
    StepIsReachable(s, Validate(0));
    var validated := Next(s, Validate(0));
    assert validated.works[0] == Validated(0, id, d) && validated.trees[Hidden(0)] == tree && Attempt(id) !in validated.trees;
    StepIsReachable(validated, Publish(0));
  }

  /** A revocation takes the whole visible tree away in one step, and can then remove it. */
  lemma RevokeTakesTheWholeTree(s: State, w: nat, nonce: nat, id: string, d: Declaration)
    requires w !in s.works && Hidden(nonce) !in s.trees && Attempt(id) in s.trees && Revocable(s.trees[Attempt(id)], d)
    ensures var s1 := Next(s, Revoke(w, nonce, id, d)); var s2 := Next(s1, RemoveTree(w));
            && Attempt(id) !in s1.trees && Hidden(nonce) in s1.trees && s1.trees[Hidden(nonce)] == s.trees[Attempt(id)]
            && s2.trees == s.trees - {Attempt(id)} && w !in s2.works
  {
    var s1 := Next(s, Revoke(w, nonce, id, d));
    assert s1.works[w] == Removing(nonce);
    assert s1.trees - {Hidden(nonce)} == s.trees - {Attempt(id)};
  }
}
