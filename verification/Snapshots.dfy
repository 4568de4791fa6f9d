/** Undo and redo of file changes (snapshotManager in examples/gage-coding/mutations.go)
    over a workspace seen as a map from resolved path to content. */
module Snapshots {
  import opened Gage

  datatype FileState = Absent | Present(content: string)

  datatype FileChange = FileChange(before: FileState, after: FileState)

  datatype ChangeSet = ChangeSet(prompt: string, changes: map<string, FileChange>)

  type Files = map<string, string>

  function StateOf(files: Files, path: string): FileState {
    if path in files then Present(files[path]) else Absent
  }

  /** The state a change asks for: where redo takes the file, or where undo does. */
  function Target(change: FileChange, redo: bool): FileState {
    if redo then change.after else change.before
  }

  function Wanted(files: Files, changes: map<string, FileChange>, redo: bool, path: string): FileState {
    if path in changes then Target(changes[path], redo) else StateOf(files, path)
  }

  /** The workspace with a change set applied, forwards or backwards. */
  function Applied(files: Files, changes: map<string, FileChange>, redo: bool): Files {
    map path | path in files.Keys + changes.Keys && Wanted(files, changes, redo, path).Present?
      :: Wanted(files, changes, redo, path).content
  }

  /** Every path of the change set is in the state the opposite move left it in. */
  predicate Current(files: Files, changes: map<string, FileChange>, redo: bool) {
    forall path :: path in changes ==> StateOf(files, path) == Target(changes[path], !redo)
  }

  lemma AppliedState(files: Files, changes: map<string, FileChange>, redo: bool, path: string)
    ensures StateOf(Applied(files, changes, redo), path) == Wanted(files, changes, redo, path)
  {
  }

  lemma SameStates(a: Files, b: Files)
    requires forall path :: StateOf(a, path) == StateOf(b, path)
    ensures a == b
  {
    forall path
      ensures path in a <==> path in b
      ensures path in a ==> a[path] == b[path]
    {
      assert StateOf(a, path) == StateOf(b, path);
    }
  }

  /** Undoing and redoing the same change set are inverse where both may be done. */
  lemma ThereAndBack(files: Files, changes: map<string, FileChange>, redo: bool)
    requires Current(files, changes, redo)
    ensures Applied(Applied(files, changes, redo), changes, !redo) == files
    ensures Current(Applied(files, changes, redo), changes, !redo)
  {
    var there := Applied(files, changes, redo);
    forall path
      ensures StateOf(Applied(there, changes, !redo), path) == StateOf(files, path)
      ensures StateOf(there, path) == Wanted(files, changes, redo, path)
    {
      AppliedState(files, changes, redo, path);
      AppliedState(there, changes, !redo, path);
    }
    SameStates(Applied(there, changes, !redo), files);
  }

  // ---- the manager ----

  datatype Move = NothingToDo | Refused(path: string) | Moved(count: nat)

  /** The manager's fields, and the workspace it looks after. */
  datatype History = History(files: Files, current: Option<ChangeSet>, undo: seq<ChangeSet>, redo: seq<ChangeSet>)

  function Top(stack: seq<ChangeSet>): ChangeSet
    requires stack != []
  {
    stack[|stack| - 1]
  }

  function Popped(stack: seq<ChangeSet>): seq<ChangeSet>
    requires stack != []
  {
    stack[..|stack| - 1]
  }

  function Committed(h: History): History {
    if h.current.None? || h.current.value.changes == map[] then h.(current := None)
    else h.(current := None, undo := h.undo + [h.current.value], redo := [])
  }

  function RecordedBefore(h: History, path: string): History {
    if h.current.None? || path in h.current.value.changes then h
    else
      var cs := h.current.value;
      h.(current := Some(cs.(changes := cs.changes[path := FileChange(StateOf(h.files, path), Absent)])))
  }

  function RecordedAfter(h: History, path: string): History {
    if h.current.None? then h
    else
      var cs := h.current.value;
      var before := if path in cs.changes then cs.changes[path].before else StateOf(h.files, path);
      h.(current := Some(cs.(changes := cs.changes[path := FileChange(before, StateOf(h.files, path))])))
  }

  /** A move off the top of a stack onto the other. */
  function MovedTop(h: History, redo: bool): History {
    var stack := if redo then h.redo else h.undo;
    if stack == [] || !Current(h.files, Top(stack).changes, redo) then h
    else
      var files := Applied(h.files, Top(stack).changes, redo);
      if redo then h.(files := files, redo := Popped(h.redo), undo := h.undo + [Top(stack)])
      else h.(files := files, undo := Popped(h.undo), redo := h.redo + [Top(stack)])
  }

  class SnapshotManager {
    const resolve: string -> Option<string>  // the path within the workspace, if it is within
    var files: Files
    var current: Option<ChangeSet>
    var undo: seq<ChangeSet>
    var redo: seq<ChangeSet>

    constructor (resolve: string -> Option<string>, files: Files)
      ensures this.resolve == resolve && View() == History(files, None, [], [])
    {
      this.resolve, this.files := resolve, files;
      current, undo, redo := None, [], [];
    }

    function View(): History
      reads this
    {
      History(files, current, undo, redo)
    }

    method Begin(prompt: string)
      modifies this
      ensures View() == old(View()).(current := Some(ChangeSet(prompt, map[])))
    {
      current := Some(ChangeSet(prompt, map[]));
    }

    method Discard()
      modifies this
      ensures View() == old(View()).(current := None)
    {
      current := None;
    }

    method Commit() returns (n: nat)
      modifies this
      ensures View() == Committed(old(View()))
      ensures n == if old(current).None? then 0 else |old(current).value.changes|
    {
      if current.None? || |current.value.changes| == 0 {
        current := None;
        return 0;
      }
      undo := undo + [current.value];
      redo := [];
      n := |current.value.changes|;
      current := None;
    }

    method RecordBefore(path: string) returns (ok: bool)
      modifies this
      ensures ok <==> old(current).None? || resolve(path).Some?
      ensures View() == if resolve(path).Some? then RecordedBefore(old(View()), resolve(path).value) else old(View())
    {
      if current.None? {
        return true;
      }
      if resolve(path).None? {
        return false;
      }
      var rel := resolve(path).value;
      if rel in current.value.changes {
        return true;
      }
      var changes := current.value.changes[rel := FileChange(StateOf(files, rel), Absent)];
      current := Some(current.value.(changes := changes));
      ok := true;
    }

    method RecordAfter(path: string) returns (ok: bool)
      modifies this
      ensures ok <==> old(current).None? || resolve(path).Some?
      ensures View() == if resolve(path).Some? then RecordedAfter(old(View()), resolve(path).value) else old(View())
    {
      if current.None? {
        return true;
      }
      if resolve(path).None? {
        return false;
      }
      var rel := resolve(path).value;
      var changes := current.value.changes;
      var change := if rel in changes then changes[rel] else FileChange(StateOf(files, rel), Absent);
      change := change.(after := StateOf(files, rel));
      current := Some(current.value.(changes := changes[rel := change]));
      ok := true;
    }

    /** Compare the workspace with what was recorded, in whatever order. */
    method CheckCurrentState(cs: ChangeSet, redoing: bool) returns (bad: Option<string>)
      ensures bad.None? <==> Current(files, cs.changes, redoing)
      ensures bad.Some? ==>
                bad.value in cs.changes && StateOf(files, bad.value) != Target(cs.changes[bad.value], !redoing)
    {
      var todo := cs.changes.Keys;
      while todo != {}
        invariant todo <= cs.changes.Keys
        invariant forall path :: path in cs.changes.Keys - todo ==>
                    StateOf(files, path) == Target(cs.changes[path], !redoing)
        decreases todo
      {
        var path :| path in todo;
        if StateOf(files, path) != Target(cs.changes[path], !redoing) {
          return Some(path);
        }
        todo := todo - {path};
      }
      bad := None;
    }

    /** Write or remove the files of a change set, in whatever order. */
    method Apply(cs: ChangeSet, redoing: bool)
      modifies this`files
      ensures files == Applied(old(files), cs.changes, redoing)
    {
      var todo := cs.changes.Keys;
      while todo != {}
        invariant todo <= cs.changes.Keys
        invariant forall path :: StateOf(files, path) ==
                    if path in todo then StateOf(old(files), path) else Wanted(old(files), cs.changes, redoing, path)
        decreases todo
      {
        var path :| path in todo;
        var state := Target(cs.changes[path], redoing);
        if state.Absent? {
          files := files - {path};
        } else {
          files := files[path := state.content];
        }
        todo := todo - {path};
      }
      forall path
        ensures StateOf(files, path) == StateOf(Applied(old(files), cs.changes, redoing), path)
      {
        AppliedState(old(files), cs.changes, redoing, path);
      }
      SameStates(files, Applied(old(files), cs.changes, redoing));
    }

    /** Undo or redo: refused, changing nothing, unless every path of the change set is
        exactly as recorded; else just those paths change. */
    method ApplyTop(redoing: bool) returns (move: Move)
      modifies this
      ensures View() == MovedTop(old(View()), redoing)
      ensures var stack := if redoing then old(redo) else old(undo);
              && (move.NothingToDo? <==> stack == [])
              && (stack != [] ==> (move.Moved? <==> Current(old(files), Top(stack).changes, redoing)))
              && (move.Moved? ==> forall path :: path !in Top(stack).changes ==>
                    StateOf(files, path) == StateOf(old(files), path))
              && (!move.Moved? ==> View() == old(View()))
    {
      var stack := if redoing then redo else undo;
      if |stack| == 0 {
        return NothingToDo;
      }
      var cs := stack[|stack| - 1];
      var bad := CheckCurrentState(cs, redoing);
      if bad.Some? {
        return Refused(bad.value);
      }
      Apply(cs, redoing);
      if redoing {
        redo := redo[..|redo| - 1];
        undo := undo + [cs];
      } else {
        undo := undo[..|undo| - 1];
        redo := redo + [cs];
      }
      move := Moved(|cs.changes|);
    }
  }

  // ---- histories ----

  /** What happens to a workspace: a turn begins and is committed or discarded, tools write files
      inside it (recorded before and after) or fail without writing (recorded before
      only), and between turns the user moves back and forth. */
  datatype Op =
    | BeginTurn(prompt: string)
    | WriteFile(path: string, state: FileState)
    | FailedCall(path: string)
    | CommitTurn
    | DiscardTurn
    | UndoTurn
    | RedoTurn

  function Written(files: Files, path: string, state: FileState): Files {
    if state.Present? then files[path := state.content] else files - {path}
  }

  function Done(h: History, op: Op): History {
    match op
    case BeginTurn(prompt) => h.(current := Some(ChangeSet(prompt, map[])))
    case WriteFile(path, state) =>
      var before := RecordedBefore(h, path);
      RecordedAfter(before.(files := Written(h.files, path, state)), path)
    case FailedCall(path) => RecordedBefore(h, path)
    case CommitTurn => Committed(h)
    case DiscardTurn => h.(current := None)
    case UndoTurn => MovedTop(h, false)
    case RedoTurn => MovedTop(h, true)
  }

  /** A change of the turn under way has no after-state, and yet its file exists. */
  predicate Hanging(h: History, path: string) {
    && h.current.Some? && path in h.current.value.changes
    && h.current.value.changes[path].after.Absent? && path in h.files
  }

  predicate NoneHanging(h: History) {
    h.current.Some? ==> forall path :: path in h.current.value.changes ==> !Hanging(h, path)
  }

  /** The paths the turn under way has changed so far. */
  function Changed(h: History): set<string> {
    if h.current.None? then {}
    else set path | path in h.current.value.changes && h.current.value.changes[path].before != StateOf(h.files, path)
  }

  predicate Mentions(stack: seq<ChangeSet>, path: string) {
    exists k :: 0 <= k < |stack| && path in stack[k].changes
  }

  /** Every call is inside a turn, turns neither overlap nor mix with moves, none is
      committed with a change left hanging (`UndoRefusedIff` says when one is), and none
      discarded that changed a path the stacks mention (`DiscardKeepsChainsIff`). */
  predicate InOrder(h: History, op: Op) {
    match op
    case BeginTurn(_) => h.current.None?
    case WriteFile(_, _) => h.current.Some?
    case FailedCall(_) => h.current.Some?
    case CommitTurn => NoneHanging(h)
    case DiscardTurn => forall path :: path in Changed(h) ==> !Mentions(h.undo, path) && !Mentions(h.redo, path)
    case _ => h.current.None?
  }

  /** The stack is a chain of states leading from the workspace: each change set fits
      the state it is met in. */
  predicate Chained(files: Files, stack: seq<ChangeSet>, redo: bool)
    decreases |stack|
  {
    stack == [] ||
    (&& Current(files, Top(stack).changes, redo)
     && Chained(Applied(files, Top(stack).changes, redo), Popped(stack), redo))
  }

  /** The workspace as it was when the turn under way, if any, began. */
  function TurnStart(h: History): Files {
    if h.current.None? then h.files else Applied(h.files, h.current.value.changes, false)
  }

  /** A file of the turn under way is as recorded after the last call that wrote it,
      or as it was before if none did. */
  predicate Tracked(files: Files, changes: map<string, FileChange>) {
    forall path :: path in changes ==>
      || StateOf(files, path) == changes[path].after
      || (changes[path].after.Absent? && StateOf(files, path) == changes[path].before)
  }

  predicate Sound(h: History) {
    && Chained(TurnStart(h), h.undo, false)
    && Chained(TurnStart(h), h.redo, true)
    && (h.current.Some? ==> Tracked(h.files, h.current.value.changes))
  }

  lemma NoChange(files: Files, redo: bool)
    ensures Applied(files, map[], redo) == files
  {
    forall path
      ensures StateOf(Applied(files, map[], redo), path) == StateOf(files, path)
    {
      AppliedState(files, map[], redo, path);
    }
    SameStates(Applied(files, map[], redo), files);
  }

  /** A recorded write leaves the start of the turn where it was. */
  lemma WriteKeepsStart(h: History, path: string, state: FileState)
    requires h.current.Some?
    ensures TurnStart(Done(h, WriteFile(path, state))) == TurnStart(h)
    ensures Sound(h) ==> Sound(Done(h, WriteFile(path, state)))
  {
    var h' := Done(h, WriteFile(path, state));
    var c, c' := h.current.value.changes, h'.current.value.changes;
    forall p
      ensures StateOf(TurnStart(h'), p) == StateOf(TurnStart(h), p)
      ensures p != path ==> StateOf(h'.files, p) == StateOf(h.files, p)
    {
      AppliedState(h.files, c, false, p);
      AppliedState(h'.files, c', false, p);
    }
    SameStates(TurnStart(h'), TurnStart(h));
  }

  /** And so does a recorded failure. */
  lemma FailureKeepsStart(h: History, path: string)
    requires h.current.Some?
    ensures TurnStart(Done(h, FailedCall(path))) == TurnStart(h)
    ensures Sound(h) ==> Sound(Done(h, FailedCall(path)))
  {
    var h' := Done(h, FailedCall(path));
    var c, c' := h.current.value.changes, h'.current.value.changes;
    forall p
      ensures StateOf(TurnStart(h'), p) == StateOf(TurnStart(h), p)
    {
      AppliedState(h.files, c, false, p);
      AppliedState(h'.files, c', false, p);
    }
    SameStates(TurnStart(h'), TurnStart(h));
  }

  lemma NoneHangingIsCurrent(h: History)
    requires h.current.Some? && Tracked(h.files, h.current.value.changes)
    ensures Current(h.files, h.current.value.changes, false) <==> NoneHanging(h)
  {
    var changes := h.current.value.changes;
    if Current(h.files, changes, false) {
      forall path | path in changes
        ensures !Hanging(h, path)
      {
        assert StateOf(h.files, path) == Target(changes[path], true);
      }
    } else {
      var path :| path in changes && StateOf(h.files, path) != Target(changes[path], true);
      assert Hanging(h, path);
    }
  }

  lemma MoveKeepsChains(h: History, redo: bool)
    requires Sound(h) && h.current.None?
    ensures Sound(MovedTop(h, redo))
  {
    var stack, other := if redo then h.redo else h.undo, if redo then h.undo else h.redo;
    if stack != [] {
      var top := Top(stack);
      ThereAndBack(h.files, top.changes, redo);
      assert Popped(other + [top]) == other;
    }
  }

  /** The same stack from another workspace: it fits as well if and only if no path on
      which the two differ is mentioned in it. */
  lemma {:induction false} ChainedElsewhereIff(a: Files, b: Files, stack: seq<ChangeSet>, redo: bool)
    requires Chained(a, stack, redo)
    ensures Chained(b, stack, redo) <==> forall path :: StateOf(a, path) != StateOf(b, path) ==> !Mentions(stack, path)
    decreases |stack|
  {
    if stack != [] {
      var changes, rest := Top(stack).changes, Popped(stack);
      forall path
        ensures Mentions(stack, path) <==> path in changes || Mentions(rest, path)
      {
        MentionsTop(stack, path);
      }
      forall path
        ensures StateOf(Applied(a, changes, redo), path) == StateOf(Applied(b, changes, redo), path)
           <==> path in changes || StateOf(a, path) == StateOf(b, path)
      {
        AppliedState(a, changes, redo, path);
        AppliedState(b, changes, redo, path);
      }
      ChainedElsewhereIff(Applied(a, changes, redo), Applied(b, changes, redo), rest, redo);
    }
  }

  lemma MentionsTop(stack: seq<ChangeSet>, path: string)
    requires stack != []
    ensures Mentions(stack, path) <==> path in Top(stack).changes || Mentions(Popped(stack), path)
  {
    var n := |stack| - 1;
    if k :| 0 <= k < |stack| && path in stack[k].changes {
      assert k < n ==> Popped(stack)[k] == stack[k];
    }
    if k :| 0 <= k < n && path in Popped(stack)[k].changes {
      assert stack[k] == Popped(stack)[k];
    }
  }

  lemma ChangedSinceStart(h: History, path: string)
    ensures path in Changed(h) <==> StateOf(TurnStart(h), path) != StateOf(h.files, path)
  {
    if h.current.Some? {
      AppliedState(h.files, h.current.value.changes, false, path);
    }
  }

  /** Discarding a turn leaves its changes in place, and the stacks stay chained if and
      only if they mention none of the paths it changed. */
  lemma DiscardKeepsChainsIff(h: History)
    requires Sound(h)
    ensures Sound(Done(h, DiscardTurn)) <==> InOrder(h, DiscardTurn)
  {
    forall path
      ensures path in Changed(h) <==> StateOf(TurnStart(h), path) != StateOf(h.files, path)
    {
      ChangedSinceStart(h, path);
    }
    ChainedElsewhereIff(TurnStart(h), h.files, h.undo, false);
    ChainedElsewhereIff(TurnStart(h), h.files, h.redo, true);
  }

  /** Every step of an orderly history keeps both stacks chained to the workspace. */
  lemma StepKeepsChains(h: History, op: Op)
    requires Sound(h) && InOrder(h, op)
    ensures Sound(Done(h, op))
  {
    match op
    case BeginTurn(_) => NoChange(h.files, false);
    case WriteFile(path, state) => WriteKeepsStart(h, path, state);
    case FailedCall(path) => FailureKeepsStart(h, path);
    case CommitTurn =>
      if h.current.Some? {
        NoneHangingIsCurrent(h);
        if h.current.value.changes == map[] {
          NoChange(h.files, false);
        } else {
          assert Popped(h.undo + [h.current.value]) == h.undo;
        }
      }
    case DiscardTurn => DiscardKeepsChainsIff(h);
    case UndoTurn => MoveKeepsChains(h, false);
    case RedoTurn => MoveKeepsChains(h, true);
  }

  function Replayed(h: History, ops: seq<Op>): History
    decreases |ops|
  {
    if ops == [] then h else Replayed(Done(h, ops[0]), ops[1..])
  }

  predicate Orderly(h: History, ops: seq<Op>)
    decreases |ops|
  {
    ops == [] || (InOrder(h, ops[0]) && Orderly(Done(h, ops[0]), ops[1..]))
  }

  /** The workspace at the bottom of the undo stack. */
  function Origin(files: Files, undo: seq<ChangeSet>): Files
    decreases |undo|
  {
    if undo == [] then files else Origin(Applied(files, Top(undo).changes, false), Popped(undo))
  }

  /** The two agree on all other paths. */
  ghost predicate SameBut(a: Files, b: Files, strayed: set<string>) {
    forall path :: path !in strayed ==> StateOf(a, path) == StateOf(b, path)
  }

  lemma {:induction false} OriginElsewhere(a: Files, b: Files, undo: seq<ChangeSet>, strayed: set<string>)
    requires SameBut(a, b, strayed)
    ensures SameBut(Origin(a, undo), Origin(b, undo), strayed)
    decreases |undo|
  {
    if undo != [] {
      var changes := Top(undo).changes;
      forall path | path !in strayed
        ensures StateOf(Applied(a, changes, false), path) == StateOf(Applied(b, changes, false), path)
      {
        AppliedState(a, changes, false, path);
        AppliedState(b, changes, false, path);
      }
      OriginElsewhere(Applied(a, changes, false), Applied(b, changes, false), Popped(undo), strayed);
    }
  }

  /** The paths whose changes a step puts out of reach of undo. */
  function Strays(h: History, op: Op): set<string> {
    if op.DiscardTurn? then Changed(h) else {}
  }

  /** No step moves the bottom of the history, but for the changes a turn is discarded
      with. */
  lemma StepKeepsOrigin(h: History, op: Op)
    requires Sound(h) && InOrder(h, op)
    ensures var h' := Done(h, op);
            SameBut(Origin(TurnStart(h'), h'.undo), Origin(TurnStart(h), h.undo), Strays(h, op))
  {
    match op
    case BeginTurn(_) => NoChange(h.files, false);
    case WriteFile(path, state) => WriteKeepsStart(h, path, state);
    case FailedCall(path) => FailureKeepsStart(h, path);
    case CommitTurn => CommitKeepsOrigin(h);
    case DiscardTurn => DiscardKeepsOrigin(h);
    case UndoTurn => UndoKeepsOrigin(h);
    case RedoTurn => RedoKeepsOrigin(h);
  }

  lemma DiscardKeepsOrigin(h: History)
    ensures SameBut(Origin(h.files, h.undo), Origin(TurnStart(h), h.undo), Changed(h))
  {
    forall path | path !in Changed(h)
      ensures StateOf(h.files, path) == StateOf(TurnStart(h), path)
    {
      ChangedSinceStart(h, path);
    }
    OriginElsewhere(h.files, TurnStart(h), h.undo, Changed(h));
  }

  lemma CommitKeepsOrigin(h: History)
    ensures Origin(TurnStart(Committed(h)), Committed(h).undo) == Origin(TurnStart(h), h.undo)
  {
    if h.current.Some? {
      if h.current.value.changes == map[] {
        NoChange(h.files, false);
      } else {
        assert Popped(h.undo + [h.current.value]) == h.undo;
      }
    }
  }

  lemma UndoKeepsOrigin(h: History)
    requires Sound(h) && h.current.None?
    ensures Origin(MovedTop(h, false).files, MovedTop(h, false).undo) == Origin(h.files, h.undo)
  {
  }

  lemma RedoKeepsOrigin(h: History)
    requires Sound(h) && h.current.None?
    ensures Origin(MovedTop(h, true).files, MovedTop(h, true).undo) == Origin(h.files, h.undo)
  {
    if h.redo != [] {
      ThereAndBack(h.files, Top(h.redo).changes, true);
      assert Popped(h.undo + [Top(h.redo)]) == h.undo;
    }
  }

  /** The paths whose changes turns of the history were discarded with. */
  function Strayed(h: History, ops: seq<Op>): set<string>
    decreases |ops|
  {
    if ops == [] then {} else Strays(h, ops[0]) + Strayed(Done(h, ops[0]), ops[1..])
  }

  /** Over any orderly history, however it writes, fails, discards, undoes and redoes,
      both stacks stay chained to the workspace, and undoing everything leads back to
      where it began, on all paths but those turns were discarded with. */
  lemma {:induction false} HistoriesAreSound(h: History, ops: seq<Op>)
    requires Sound(h) && Orderly(h, ops)
    ensures var h' := Replayed(h, ops);
            Sound(h') && SameBut(Origin(TurnStart(h'), h'.undo), Origin(TurnStart(h), h.undo), Strayed(h, ops))
    decreases |ops|
  {
    if ops != [] {
      StepKeepsChains(h, ops[0]);
      StepKeepsOrigin(h, ops[0]);
      HistoriesAreSound(Done(h, ops[0]), ops[1..]);
      var h1, h' := Done(h, ops[0]), Replayed(h, ops);
      SameButBoth(Origin(TurnStart(h'), h'.undo), Origin(TurnStart(h1), h1.undo), Origin(TurnStart(h), h.undo),
                  Strayed(h1, ops[1..]), Strays(h, ops[0]));
    }
  }

  lemma SameButBoth(a: Files, b: Files, c: Files, s: set<string>, t: set<string>)
    requires SameBut(a, b, s) && SameBut(b, c, t)
    ensures SameBut(a, c, t + s)
  {
  }

  function Moves(h: History, redo: bool, n: nat): History
    decreases n
  {
    if n == 0 then h else Moves(MovedTop(h, redo), redo, n - 1)
  }

  lemma {:induction false} MovesSnoc(h: History, redo: bool, n: nat)
    ensures Moves(h, redo, n + 1) == MovedTop(Moves(h, redo, n), redo)
    decreases n
  {
    if n > 0 {
      MovesSnoc(MovedTop(h, redo), redo, n - 1);
    }
  }

  /** One move is never refused, and the opposite move takes it back entirely: files
      and both stacks. */
  lemma MoveAndBack(h: History, redo: bool)
    requires Sound(h) && h.current.None?
    requires (if redo then h.redo else h.undo) != []
    ensures MovedTop(MovedTop(h, redo), !redo) == h
    ensures MovedTop(h, redo).current.None?
    ensures |(if redo then MovedTop(h, redo).redo else MovedTop(h, redo).undo)|
            == |(if redo then h.redo else h.undo)| - 1
  {
    var stack, other := if redo then h.redo else h.undo, if redo then h.undo else h.redo;
    var top := Top(stack);
    ThereAndBack(h.files, top.changes, redo);
    assert Popped(other + [top]) == other && Top(other + [top]) == top;
    assert Popped(stack) + [top] == stack;
    var there := Applied(h.files, top.changes, redo);
    if redo {
      assert MovedTop(h, true) == h.(files := there, redo := Popped(stack), undo := other + [top]);
    } else {
      assert MovedTop(h, false) == h.(files := there, undo := Popped(stack), redo := other + [top]);
    }
  }

  /** n undos (or redos) followed by n redos (or undos) restore everything, none of
      them being refused. */
  lemma {:induction false} MovesAndBack(h: History, redo: bool, n: nat)
    requires Sound(h) && h.current.None?
    requires n <= |(if redo then h.redo else h.undo)|
    ensures Moves(Moves(h, redo, n), !redo, n) == h
    ensures |(if redo then Moves(h, redo, n).redo else Moves(h, redo, n).undo)|
            == |(if redo then h.redo else h.undo)| - n
    decreases n
  {
    if n > 0 {
      MoveAndBack(h, redo);
      MoveKeepsChains(h, redo);
      MovesAndBack(MovedTop(h, redo), redo, n - 1);
      MovesSnoc(Moves(h, redo, n), !redo, n - 1);
    }
  }

  /** Undoing every turn of an orderly history that began on `files` gives `files` back,
      but for the changes turns were discarded with. */
  lemma UndoAllRestores(files: Files, ops: seq<Op>)
    requires Orderly(History(files, None, [], []), ops)
    requires Replayed(History(files, None, [], []), ops).current.None?
    ensures var start := History(files, None, [], []);
            var h := Replayed(start, ops);
            && SameBut(Moves(h, false, |h.undo|).files, files, Strayed(start, ops))
            && (Strayed(start, ops) == {} ==> Moves(h, false, |h.undo|).files == files)
  {
    var start := History(files, None, [], []);
    HistoriesAreSound(start, ops);
    var h := Replayed(start, ops);
    UndosReachOrigin(h, |h.undo|);
    if Strayed(start, ops) == {} {
      SameStates(Moves(h, false, |h.undo|).files, files);
    }
  }

  lemma {:induction false} UndosReachOrigin(h: History, n: nat)
    requires Sound(h) && h.current.None? && n == |h.undo|
    ensures Moves(h, false, n).files == Origin(h.files, h.undo)
    decreases n
  {
    if n > 0 {
      var next := MovedTop(h, false);
      assert next.files == Applied(h.files, Top(h.undo).changes, false) && next.undo == Popped(h.undo);
      MoveKeepsChains(h, false);
      UndosReachOrigin(next, n - 1);
    }
  }

  /** After a non-empty commit there is nothing to redo. */
  lemma CommitEndsRedo(h: History)
    requires h.current.Some? && h.current.value.changes != map[]
    ensures Done(Done(h, CommitTurn), RedoTurn) == Done(h, CommitTurn)
    ensures |Done(h, CommitTurn).undo| == |h.undo| + 1
  {
  }

  // ---- calls that fail ----

  /** The calls of one turn. */
  predicate Calls(ops: seq<Op>) {
    forall k :: 0 <= k < |ops| ==> ops[k].WriteFile? || ops[k].FailedCall?
  }

  predicate Wrote(ops: seq<Op>, path: string) {
    exists k :: 0 <= k < |ops| && ops[k].WriteFile? && ops[k].path == path
  }

  predicate Failed(ops: seq<Op>, path: string) {
    exists k :: 0 <= k < |ops| && ops[k].FailedCall? && ops[k].path == path
  }

  lemma Head(ops: seq<Op>, path: string)
    requires ops != []
    ensures Wrote(ops, path) <==> Wrote(ops[1..], path) || (ops[0].WriteFile? && ops[0].path == path)
    ensures Failed(ops, path) <==> Failed(ops[1..], path) || (ops[0].FailedCall? && ops[0].path == path)
  {
    if k :| 0 <= k < |ops| && ops[k].WriteFile? && ops[k].path == path {
      assert k > 0 ==> ops[1..][k - 1] == ops[k];
    }
    if k :| 0 <= k < |ops| && ops[k].FailedCall? && ops[k].path == path {
      assert k > 0 ==> ops[1..][k - 1] == ops[k];
    }
    if k :| 0 <= k < |ops[1..]| && ops[1..][k].WriteFile? && ops[1..][k].path == path {
      assert ops[k + 1] == ops[1..][k];
    }
    if k :| 0 <= k < |ops[1..]| && ops[1..][k].FailedCall? && ops[1..][k].path == path {
      assert ops[k + 1] == ops[1..][k];
    }
  }

  /** What some calls leave on record about a path: written, it is as recorded after;
      otherwise the file is untouched, and a failed call has it recorded before only. */
  lemma {:induction false} CallsRecord(h: History, ops: seq<Op>, path: string)
    requires h.current.Some? && Calls(ops)
    ensures var h' := Replayed(h, ops);
            && h'.current.Some? && h'.undo == h.undo && h'.redo == h.redo
            && h'.current.value.prompt == h.current.value.prompt
            && var c, c' := h.current.value.changes, h'.current.value.changes;
               && (path in c' <==> path in c || Wrote(ops, path) || Failed(ops, path))
               && (Wrote(ops, path) ==> c'[path].after == StateOf(h'.files, path))
               && (!Wrote(ops, path) ==> StateOf(h'.files, path) == StateOf(h.files, path))
               && (!Wrote(ops, path) && path in c ==> c'[path] == c[path])
               && (!Wrote(ops, path) && path !in c && Failed(ops, path) ==>
                     c'[path] == FileChange(StateOf(h.files, path), Absent))
    decreases |ops|
  {
    if ops != [] {
      Head(ops, path);
      assert forall k :: 0 <= k < |ops[1..]| ==> ops[1..][k] == ops[k + 1];
      CallsRecord(Done(h, ops[0]), ops[1..], path);
    }
  }

  lemma {:induction false} CallsKeepStart(h: History, ops: seq<Op>)
    requires h.current.Some? && Calls(ops)
    ensures var h' := Replayed(h, ops); h'.current.Some? && TurnStart(h') == TurnStart(h)
    decreases |ops|
  {
    if ops != [] {
      assert forall k :: 0 <= k < |ops[1..]| ==> ops[1..][k] == ops[k + 1];
      CallsKeepStart(Done(h, ops[0]), ops[1..]);
      match ops[0]
      case WriteFile(path, state) => WriteKeepsStart(h, path, state);
      case FailedCall(path) => FailureKeepsStart(h, path);
    }
  }

  /** A call failed on a file that exists, and none wrote it. */
  predicate Stuck(files: Files, ops: seq<Op>, path: string) {
    Failed(ops, path) && !Wrote(ops, path) && path in files
  }

  lemma StuckIsHanging(h: History, prompt: string, ops: seq<Op>, path: string)
    requires Calls(ops)
    ensures Stuck(h.files, ops, path) <==> Hanging(Replayed(Done(h, BeginTurn(prompt)), ops), path)
  {
    CallsRecord(Done(h, BeginTurn(prompt)), ops, path);
  }

  lemma TurnIsTracked(h: History, prompt: string, ops: seq<Op>)
    requires Calls(ops)
    ensures var h' := Replayed(Done(h, BeginTurn(prompt)), ops);
            h'.current.Some? && Tracked(h'.files, h'.current.value.changes)
  {
    CallsRecord(Done(h, BeginTurn(prompt)), ops, "");
    var h' := Replayed(Done(h, BeginTurn(prompt)), ops);
    forall path | path in h'.current.value.changes
      ensures var change := h'.current.value.changes[path];
              StateOf(h'.files, path) == change.after
                || (change.after.Absent? && StateOf(h'.files, path) == change.before)
    {
      CallsRecord(Done(h, BeginTurn(prompt)), ops, path);
    }
  }

  /** A turn's undo, right after its commit, is refused exactly when a call of it failed
      on an existing file that no call of it wrote: its own writes cannot be taken back
      then. Otherwise undo restores the workspace the turn began on. */
  lemma UndoRefusedIff(h: History, prompt: string, ops: seq<Op>)
    requires Calls(ops) && ops != []
    ensures var committed := Done(Replayed(Done(h, BeginTurn(prompt)), ops), CommitTurn);
            && |committed.undo| == |h.undo| + 1
            && (MovedTop(committed, false) == committed <==> exists path :: Stuck(h.files, ops, path))
            && (MovedTop(committed, false) != committed ==> MovedTop(committed, false).files == h.files)
            && (InOrder(Replayed(Done(h, BeginTurn(prompt)), ops), CommitTurn) <==>
                !exists path :: Stuck(h.files, ops, path))
  {
    var begun := Done(h, BeginTurn(prompt));
    var h' := Replayed(begun, ops);
    NoChange(h.files, false);
    CallsKeepStart(begun, ops);
    TurnIsTracked(h, prompt, ops);
    NoneHangingIsCurrent(h');
    assert Wrote(ops, ops[0].path) || Failed(ops, ops[0].path);
    CallsRecord(begun, ops, ops[0].path);
    assert ops[0].path in h'.current.value.changes;
    forall path
      ensures Stuck(h.files, ops, path) <==> Hanging(h', path)
    {
      StuckIsHanging(h, prompt, ops, path);
    }
    CommitThenUndo(h');
  }

  lemma CommitThenUndo(h: History)
    requires h.current.Some? && h.current.value.changes != map[]
    ensures var committed := Done(h, CommitTurn);
            && committed.undo == h.undo + [h.current.value]
            && (MovedTop(committed, false) == committed <==> !Current(h.files, h.current.value.changes, false))
            && (MovedTop(committed, false) != committed ==> MovedTop(committed, false).files == TurnStart(h))
  {
    var committed := Done(h, CommitTurn);
    assert Top(committed.undo) == h.current.value;
    if Current(h.files, h.current.value.changes, false) {
      assert |MovedTop(committed, false).undo| == |h.undo|;
    }
  }

  /** The least such turn: a file is written, a call fails on another that exists, and
      the write cannot be undone though it alone changed anything. */
  lemma FailedCallBlocksUndo(prompt: string, path: string, text: string, other: string, kept: string)
    requires path != other
    ensures var h := History(map[other := kept], None, [], []);
            var ops := [WriteFile(path, Present(text)), FailedCall(other)];
            var committed := Done(Replayed(Done(h, BeginTurn(prompt)), ops), CommitTurn);
            committed.files == map[path := text, other := kept] && MovedTop(committed, false) == committed
  {
    var h := History(map[other := kept], None, [], []);
    var ops := [WriteFile(path, Present(text)), FailedCall(other)];
    UndoRefusedIff(h, prompt, ops);
    assert ops[1].FailedCall? && ops[1].path == other;
    assert Stuck(h.files, ops, other);
    var begun := Done(h, BeginTurn(prompt));
    var written := Done(begun, ops[0]);
    assert ops[1..] == [FailedCall(other)] && ops[1..][1..] == [];
    assert Replayed(begun, ops) == Replayed(written, ops[1..]) == Done(written, FailedCall(other));
    assert written.files == map[path := text, other := kept];
  }

  /** The least turn not to be discarded: a file is written in one turn and again in the
      next; with that discarded, the first cannot be undone. */
  lemma DiscardBlocksUndo(prompt: string, path: string, text: string, later: string)
    requires text != later
    ensures var h := History(map[], None, [], []);
            var committed := Replayed(h, [BeginTurn(prompt), WriteFile(path, Present(text)), CommitTurn]);
            var turn := Replayed(committed, [BeginTurn(prompt), WriteFile(path, Present(later))]);
            && Orderly(h, [BeginTurn(prompt), WriteFile(path, Present(text)), CommitTurn])
            && |committed.undo| == 1 && !InOrder(turn, DiscardTurn)
            && MovedTop(Done(turn, DiscardTurn), false) == Done(turn, DiscardTurn)
  {
    var h := History(map[], None, [], []);
    var writes := [WriteFile(path, Present(text)), CommitTurn];
    var ops := [BeginTurn(prompt)] + writes;
    assert ops == [BeginTurn(prompt), WriteFile(path, Present(text)), CommitTurn];
    assert ops[1..] == writes && writes[1..] == [CommitTurn] && [CommitTurn][1..] == [];
    var begun := Done(h, BeginTurn(prompt));
    var wrote := Done(begun, WriteFile(path, Present(text)));
    var committed := Done(wrote, CommitTurn);
    var change := map[path := FileChange(Absent, Present(text))];
    assert wrote.current.value.changes == change && wrote.files == map[path := text];
    assert Orderly(wrote, [CommitTurn]) && Orderly(begun, writes);
    assert Replayed(wrote, [CommitTurn]) == Replayed(committed, []) == committed;
    assert Replayed(begun, writes) == Replayed(wrote, [CommitTurn]);
    assert Replayed(h, ops) == Replayed(begun, writes);
    assert path in change;
    assert committed.undo == [ChangeSet(prompt, change)];
    OverwriteStrays(committed, prompt, path, text, later, change);
  }

  lemma OverwriteStrays(committed: History, prompt: string, path: string, text: string, later: string,
                        change: map<string, FileChange>)
    requires committed == History(map[path := text], None, [ChangeSet(prompt, change)], [])
    requires change == map[path := FileChange(Absent, Present(text))] && text != later
    ensures var turn := Replayed(committed, [BeginTurn(prompt), WriteFile(path, Present(later))]);
            !InOrder(turn, DiscardTurn) && MovedTop(Done(turn, DiscardTurn), false) == Done(turn, DiscardTurn)
  {
    var ops := [BeginTurn(prompt), WriteFile(path, Present(later))];
    assert ops[1..] == [ops[1]] && [ops[1]][1..] == [];
    var begun := Done(committed, ops[0]);
    var turn := Done(begun, ops[1]);
    assert Replayed(begun, [ops[1]]) == Replayed(turn, []) == turn;
    assert Replayed(committed, ops) == Replayed(begun, [ops[1]]);
    assert turn.files == map[path := later] && turn.undo == committed.undo;
    assert path in Changed(turn) && path in turn.undo[0].changes;
    assert path in change && StateOf(turn.files, path) != Target(change[path], true);
  }
}
