/** scripts/gen-dashboards.py: the dashboards, their copies in charts and the
    bundle, written over a file system and checked. A board's renderings are given;
    a file system maps the path of each file to its text. */
module Generate {
  import opened Values

  type Path = string
  type Files = map<Path, string>

  /** A board: where each of its variants goes, and the text of those it builds. */
  datatype Target = Target(path: Path, variant: string)
  datatype Board = Board(targets: seq<Target>, rendered: map<string, string>)

  datatype Output = Output(path: Path, text: string)

  datatype Mode = Write | Check

  datatype Stale = Missing(path: Path) | OutOfDate(path: Path) | LeftOver(path: Path) | Unmarked(path: Path)

  /** What sync finds wrong with a path. */
  function Staleness(files: Files, o: Output): seq<Stale> {
    if o.path !in files then [Missing(o.path)] else if files[o.path] != o.text then [OutOfDate(o.path)] else []
  }

  predicate Holds(files: Files, o: Output) { o.path in files && files[o.path] == o.text }

  /** The files once the outputs are written in order, and how many were. */
  function Written(files: Files, outputs: seq<Output>): Files {
    if outputs == [] then files
    else
      var last := outputs[|outputs| - 1];
      Written(files, outputs[..|outputs| - 1])[last.path := last.text]
  }

  function Writes(files: Files, outputs: seq<Output>): nat {
    if outputs == [] then 0
    else
      var before := outputs[..|outputs| - 1];
      Writes(files, before) + if Holds(Written(files, before), outputs[|outputs| - 1]) then 0 else 1
  }

  function StaleOf(files: Files, outputs: seq<Output>): seq<Stale> {
    if outputs == [] then []
    else StaleOf(files, outputs[..|outputs| - 1]) + Staleness(files, outputs[|outputs| - 1])
  }

  /** What a board writes, up to a variant it does not build. */
  function OutputsOf(targets: seq<Target>, rendered: map<string, string>): (seq<Output>, bool) {
    if targets == [] then ([], true)
    else
      var (before, whole) := OutputsOf(targets[..|targets| - 1], rendered);
      var t := targets[|targets| - 1];
      if whole && t.variant in rendered then (before + [Output(t.path, rendered[t.variant])], true) else (before, false)
  }

  function BoardOutputs(boards: seq<Board>): (seq<Output>, bool) {
    if boards == [] then ([], true)
    else
      var (before, whole) := BoardOutputs(boards[..|boards| - 1]);
      var b := boards[|boards| - 1];
      var (more, all) := OutputsOf(b.targets, b.rendered);
      if whole then (before + more, all) else (before, false)
  }

  function PathsOf(outputs: seq<Output>): set<Path> { set o | o in outputs :: o.path }

  // ------------------------------------------------------------------ the run

  /** The bundle directory, and the sorted listing of a set of its files. */
  datatype Bundle = Bundle(holds: Path -> bool, sorted: set<Path> -> seq<Path>)

  ghost predicate IsListing(b: Bundle) {
    forall paths: set<Path> ::
      && (forall p :: p in b.sorted(paths) <==> p in paths)
      && Distinct(b.sorted(paths))
  }

  predicate Distinct(paths: seq<Path>) { forall i, j | 0 <= i < j < |paths| :: paths[i] != paths[j] }

  function InBundle(files: Files, b: Bundle): set<Path> { set p | p in files.Keys && b.holds(p) }

  function Pruned(files: Files, b: Bundle, kept: set<Path>): Files {
    map p | p in files && !(b.holds(p) && p !in kept) :: files[p]
  }

  function LeftOvers(paths: seq<Path>, kept: set<Path>): seq<Stale> {
    if paths == [] then []
    else
      var p := paths[|paths| - 1];
      LeftOvers(paths[..|paths| - 1], kept) + if p in kept then [] else [LeftOver(p)]
  }

  function Dropped(paths: seq<Path>, kept: set<Path>): set<Path> { set p | p in paths && p !in kept }

  lemma DroppedLast(paths: seq<Path>, kept: set<Path>)
    requires paths != [] && Distinct(paths)
    ensures
      var n := |paths| - 1;
      var gone := Dropped(paths[..n], kept);
      && Distinct(paths[..n])
      && Dropped(paths, kept) == (if paths[n] in kept then gone else gone + {paths[n]})
      && |Dropped(paths, kept)| == |gone| + if paths[n] in kept then 0 else 1
  {
    var n := |paths| - 1;
    assert paths == paths[..n] + [paths[n]];
    assert paths[n] !in Dropped(paths[..n], kept);
  }

  lemma OneMoreGone(files: Files, gone: set<Path>, p: Path)
    ensures files - gone - {p} == files - (gone + {p})
  {
  }

  /** Dropping the paths one by one that are not kept. */
  function DropAll(p: Progress, paths: seq<Path>, kept: set<Path>, mode: Mode): Progress {
    if paths == [] then p
    else
      var before, last := DropAll(p, paths[..|paths| - 1], kept, mode), paths[|paths| - 1];
      if last in kept then before
      else if mode == Check then before.(stale := before.stale + [LeftOver(last)])
      else before.(files := before.files - {last}, written := before.written + 1)
  }

  lemma {:induction false} DropAllChecks(p: Progress, paths: seq<Path>, kept: set<Path>)
    ensures DropAll(p, paths, kept, Check) == p.(stale := p.stale + LeftOvers(paths, kept))
  {
    if paths != [] {
      var n := |paths| - 1;
      DropAllChecks(p, paths[..n], kept);
      assert p.stale + LeftOvers(paths[..n], kept) + [LeftOver(paths[n])] == p.stale + (LeftOvers(paths[..n], kept) + [LeftOver(paths[n])]);
    }
  }

  lemma {:induction false} DropAllWrites(p: Progress, paths: seq<Path>, kept: set<Path>)
    requires Distinct(paths)
    ensures DropAll(p, paths, kept, Write) == Progress(p.files - Dropped(paths, kept), p.written + |Dropped(paths, kept)|, p.stale)
  {
    if paths == [] {
      assert p.files - {} == p.files && Dropped(paths, kept) == {};
    } else {
      var n := |paths| - 1;
      var gone := Dropped(paths[..n], kept);
      DropAllWrites(p, paths[..n], kept);
      DroppedLast(paths, kept);
      OneMoreGone(p.files, gone, paths[n]);
    }
  }

  lemma DroppedIsPruned(files: Files, b: Bundle, kept: set<Path>, paths: seq<Path>)
    requires forall p :: p in paths <==> p in InBundle(files, b)
    ensures Dropped(paths, kept) == InBundle(files, b) - kept
    ensures files - Dropped(paths, kept) == Pruned(files, b, kept)
  {
  }

  // -------------------------------------------------------- lists of outputs

  /** Where a run stands: the files, how many it wrote or removed, what it found. */
  datatype Progress = Progress(files: Files, written: nat, stale: seq<Stale>)

  function Step(p: Progress, o: Output, mode: Mode): Progress {
    if Holds(p.files, o) then p
    else if mode == Check then p.(stale := p.stale + Staleness(p.files, o))
    else p.(files := p.files[o.path := o.text], written := p.written + 1)
  }

  function Steps(p: Progress, outputs: seq<Output>, mode: Mode): Progress {
    if outputs == [] then p else Step(Steps(p, outputs[..|outputs| - 1], mode), outputs[|outputs| - 1], mode)
  }

  lemma {:induction false} StepsJoined(p: Progress, a: seq<Output>, b: seq<Output>, mode: Mode)
    ensures Steps(p, a + b, mode) == Steps(Steps(p, a, mode), b, mode)
    decreases |b|
  {
    if b == [] {
      assert a + b == a;
    } else {
      var n := |b| - 1;
      assert (a + b)[..|a| + n] == a + b[..n] && (a + b)[|a| + n] == b[n];
      StepsJoined(p, a, b[..n], mode);
    }
  }

  /** What a list of outputs comes to, in either mode. */
  lemma {:induction false} StepsAre(p: Progress, outputs: seq<Output>, mode: Mode)
    ensures mode == Write ==> Steps(p, outputs, mode) == Progress(Written(p.files, outputs), p.written + Writes(p.files, outputs), p.stale)
    ensures mode == Check ==> Steps(p, outputs, mode) == p.(stale := p.stale + StaleOf(p.files, outputs))
  {
    if outputs != [] {
      var before, last := outputs[..|outputs| - 1], outputs[|outputs| - 1];
      StepsAre(p, before, mode);
      var at := Written(p.files, before);
      if Holds(at, last) { assert at[last.path := last.text] == at; }
      assert p.stale + StaleOf(p.files, before) + Staleness(p.files, last) == p.stale + StaleOf(p.files, outputs);
    }
  }

  /** A missing variant ends the list, whatever targets and boards follow. */
  lemma {:induction false} TargetsEnd(targets: seq<Target>, rendered: map<string, string>, k: nat)
    requires k <= |targets| && !OutputsOf(targets[..k], rendered).1
    ensures OutputsOf(targets, rendered) == OutputsOf(targets[..k], rendered)
    decreases |targets|
  {
    if k == |targets| {
      assert targets[..k] == targets;
    } else {
      var n := |targets| - 1;
      assert targets[..n][..k] == targets[..k];
      TargetsEnd(targets[..n], rendered, k);
    }
  }

  lemma {:induction false} BoardsEnd(boards: seq<Board>, k: nat)
    requires k <= |boards| && !BoardOutputs(boards[..k]).1
    ensures BoardOutputs(boards) == BoardOutputs(boards[..k])
    decreases |boards|
  {
    if k == |boards| {
      assert boards[..k] == boards;
    } else {
      var n := |boards| - 1;
      assert boards[..n][..k] == boards[..k];
      BoardsEnd(boards[..n], k);
    }
  }

  /** How a run ends: with sys.exit before or among the boards, or with its exit
      code and what it wrote and removed. */
  datatype Outcome = NoBoards | NoVariant | Done(code: int, written: nat)

  /** The files after a write run that ends. */
  function Generated(files: Files, boards: seq<Output>, bundle: seq<Output>, b: Bundle): Files {
    Pruned(Written(files, boards + bundle), b, PathsOf(bundle))
  }

  /** What a check run that ends has to say before the marks. */
  function OutOfSync(files: Files, boards: seq<Output>, bundle: seq<Output>, b: Bundle): seq<Stale> {
    StaleOf(files, boards + bundle) + LeftOvers(b.sorted(InBundle(files, b)), PathsOf(bundle))
  }

  ghost predicate IsWriteRun(start: Files, boards: seq<Output>, bundle: seq<Output>, b: Bundle, end: Files, r: Outcome, stale: seq<Stale>) {
    && end == Generated(start, boards, bundle, b) && stale == []
    && r == Done(0, Writes(start, boards + bundle) + |InBundle(Written(start, boards + bundle), b) - PathsOf(bundle)|)
  }

  ghost predicate IsCheckRun(start: Files, boards: seq<Output>, bundle: seq<Output>, b: Bundle, unmarked: seq<Path>, r: Outcome, stale: seq<Stale>) {
    && stale == OutOfSync(start, boards, bundle, b) + UnmarkedOf(unmarked)
    && r == Done(if stale == [] then 0 else 1, 0)
  }

  function UnmarkedOf(paths: seq<Path>): (r: seq<Stale>)
    ensures |r| == |paths| && forall i | 0 <= i < |paths| :: r[i] == Unmarked(paths[i])
  {
    seq(|paths|, i requires 0 <= i < |paths| => Unmarked(paths[i]))
  }

  class Disk {
    var files: Files

    constructor (files: Files)
      ensures this.files == files
    {
      this.files := files;
    }

    method Sync(o: Output, mode: Mode, written: nat, stale: seq<Stale>) returns (n: nat, found: seq<Stale>)
      modifies this
      ensures Progress(files, n, found) == Step(Progress(old(files), written, stale), o, mode)
    {
      n, found := written, stale;
      if o.path in files && files[o.path] == o.text {
        return;
      }
      if mode == Check {
        found := found + [if o.path !in files then Missing(o.path) else OutOfDate(o.path)];
        return;
      }
      files := files[o.path := o.text];
      n := n + 1;
    }

    method SyncAll(outputs: seq<Output>, mode: Mode, written: nat, stale: seq<Stale>) returns (n: nat, found: seq<Stale>)
      modifies this
      ensures Progress(files, n, found) == Steps(Progress(old(files), written, stale), outputs, mode)
    {
      n, found := written, stale;
      for i := 0 to |outputs|
        invariant Progress(files, n, found) == Steps(Progress(old(files), written, stale), outputs[..i], mode)
      {
        assert outputs[..i + 1][..i] == outputs[..i];
        n, found := Sync(outputs[i], mode, n, found);
      }
      assert outputs[..|outputs|] == outputs;
    }

    method PruneListed(paths: seq<Path>, kept: set<Path>, mode: Mode, stale: seq<Stale>) returns (removed: nat, found: seq<Stale>)
      modifies this
      ensures Progress(files, removed, found) == DropAll(Progress(old(files), 0, stale), paths, kept, mode)
    {
      removed, found := 0, stale;
      for i := 0 to |paths|
        invariant Progress(files, removed, found) == DropAll(Progress(old(files), 0, stale), paths[..i], kept, mode)
      {
        assert paths[..i + 1][..i] == paths[..i];
        if paths[i] in kept {
          continue;
        }
        if mode == Check {
          found := found + [LeftOver(paths[i])];
        } else {
          files := files - {paths[i]};
          removed := removed + 1;
        }
      }
      assert paths[..|paths|] == paths;
    }

    method Prune(b: Bundle, kept: set<Path>, mode: Mode, stale: seq<Stale>) returns (removed: nat, found: seq<Stale>)
      requires IsListing(b)
      modifies this
      ensures files == if mode == Check then old(files) else Pruned(old(files), b, kept)
      ensures removed == if mode == Check then 0 else |InBundle(old(files), b) - kept|
      ensures found == stale + if mode == Check then LeftOvers(b.sorted(InBundle(old(files), b)), kept) else []
    {
      var paths := b.sorted(InBundle(files, b));
      DroppedIsPruned(files, b, kept, paths);
      DropAllChecks(Progress(files, 0, stale), paths, kept);
      DropAllWrites(Progress(files, 0, stale), paths, kept);
      removed, found := PruneListed(paths, kept, mode, stale);
    }

    method SyncBoard(board: Board, mode: Mode, written: nat, stale: seq<Stale>) returns (n: nat, found: seq<Stale>, whole: bool)
      modifies this
      ensures whole == OutputsOf(board.targets, board.rendered).1
      ensures Progress(files, n, found)
           == Steps(Progress(old(files), written, stale), OutputsOf(board.targets, board.rendered).0, mode)
    {
      n, found := written, stale;
      var targets := board.targets;
      ghost var outputs: seq<Output> := [];
      for i := 0 to |targets|
        invariant OutputsOf(targets[..i], board.rendered) == (outputs, true)
        invariant Progress(files, n, found) == Steps(Progress(old(files), written, stale), outputs, mode)
      {
        assert targets[..i + 1][..i] == targets[..i];
        var t := targets[i];
        if t.variant !in board.rendered {
          TargetsEnd(targets, board.rendered, i + 1);
          return n, found, false;
        }
        var o := Output(t.path, board.rendered[t.variant]);
        assert (outputs + [o])[..|outputs|] == outputs;
        n, found := Sync(o, mode, n, found);
        outputs := outputs + [o];
      }
      assert targets[..|targets|] == targets;
      whole := true;
    }

    method SyncBoards(boards: seq<Board>, mode: Mode, written: nat, stale: seq<Stale>) returns (n: nat, found: seq<Stale>, whole: bool)
      modifies this
      ensures whole == BoardOutputs(boards).1
      ensures Progress(files, n, found) == Steps(Progress(old(files), written, stale), BoardOutputs(boards).0, mode)
    {
      n, found := written, stale;
      ghost var outputs: seq<Output> := [];
      for i := 0 to |boards|
        invariant BoardOutputs(boards[..i]) == (outputs, true)
        invariant Progress(files, n, found) == Steps(Progress(old(files), written, stale), outputs, mode)
      {
        assert boards[..i + 1][..i] == boards[..i];
        ghost var more := OutputsOf(boards[i].targets, boards[i].rendered).0;
        StepsJoined(Progress(old(files), written, stale), outputs, more, mode);
        n, found, whole := SyncBoard(boards[i], mode, n, found);
        outputs := outputs + more;
        if !whole {
          BoardsEnd(boards, i + 1);
          return;
        }
      }
      assert boards[..|boards|] == boards;
      whole := true;
    }

    /** The boards, then the bundle. */
    method SyncFiles(boards: seq<Board>, bundle: seq<Output>, mode: Mode) returns (written: nat, found: seq<Stale>, whole: bool)
      modifies this
      ensures whole == BoardOutputs(boards).1
      ensures mode == Check ==> files == old(files)
      ensures whole && mode == Write ==>
        var all := BoardOutputs(boards).0 + bundle; files == Written(old(files), all) && written == Writes(old(files), all) && found == []
      ensures whole && mode == Check ==> written == 0 && found == StaleOf(old(files), BoardOutputs(boards).0 + bundle)
    {
      ghost var start, outputs := Progress(files, 0, []), BoardOutputs(boards).0;
      StepsAre(start, outputs, mode);
      written, found, whole := SyncBoards(boards, mode, 0, []);
      if whole {
        StepsJoined(start, outputs, bundle, mode);
        StepsAre(start, outputs + bundle, mode);
        written, found := SyncAll(bundle, mode, written, found);
        assert [] + StaleOf(start.files, outputs + bundle) == StaleOf(start.files, outputs + bundle);
      }
    }

    /** One run, over boards and bundle files as they render now; `unmarked` are
        the written paths that git does not list as generated. */
    method Run(boards: seq<Board>, bundle: seq<Output>, b: Bundle, unmarked: seq<Path>, mode: Mode)
      returns (r: Outcome, stale: seq<Stale>)
      requires IsListing(b)
      modifies this
      ensures mode == Check ==> files == old(files)
      ensures r == NoBoards <==> boards == []
      ensures r.Done? <==> boards != [] && BoardOutputs(boards).1
      ensures r.Done? && mode == Write ==> IsWriteRun(old(files), BoardOutputs(boards).0, bundle, b, files, r, stale)
      ensures r.Done? && mode == Check ==> IsCheckRun(old(files), BoardOutputs(boards).0, bundle, b, unmarked, r, stale)
    {
      stale := [];
      if boards == [] {
        return NoBoards, stale;
      }
      var written: nat, whole: bool;
      written, stale, whole := SyncFiles(boards, bundle, mode);
      if !whole {
        return NoVariant, stale;
      }
      var removed: nat;
      removed, stale := Prune(b, PathsOf(bundle), mode, stale);
      if mode == Check {
        stale := stale + UnmarkedOf(unmarked);
        return Done(if stale == [] then 0 else 1, 0), stale;
      }
      r := Done(0, written + removed);
    }
  }

  // ------------------------------------------------------- what boards write

  /** A board writes its targets in order, each with the text of its variant, up
      to the first variant it does not build. */
  lemma {:induction false} TargetsWritten(targets: seq<Target>, rendered: map<string, string>)
    ensures
      var (outputs, whole) := OutputsOf(targets, rendered);
      && |outputs| <= |targets|
      && (forall i | 0 <= i < |outputs| ::
            targets[i].variant in rendered && outputs[i] == Output(targets[i].path, rendered[targets[i].variant]))
      && (whole <==> |outputs| == |targets|)
      && (|outputs| < |targets| ==> targets[|outputs|].variant !in rendered)
  {
    if targets != [] { TargetsWritten(targets[..|targets| - 1], rendered); }
  }

  /** The boards come through exactly when each builds what its targets want, and
      then what they write is just that. */
  lemma {:induction false} BoardsWritten(boards: seq<Board>)
    ensures
      var (outputs, whole) := BoardOutputs(boards);
      && (whole <==> forall b, t | b in boards && t in b.targets :: t.variant in b.rendered)
      && (whole ==> forall o :: o in outputs <==> exists b :: b in boards && IsOutputOf(b, o))
  {
    if boards != [] {
      var n := |boards| - 1;
      var b := boards[n];
      var (more, all) := OutputsOf(b.targets, b.rendered);
      BoardsWritten(boards[..n]);
      TargetsWritten(b.targets, b.rendered);
      assert boards == boards[..n] + [b];
      if all {
        forall o ensures o in more <==> IsOutputOf(b, o) {
          if t :| t in b.targets && t.variant in b.rendered && o == Output(t.path, b.rendered[t.variant]) {
            var i :| 0 <= i < |b.targets| && b.targets[i] == t;
            assert more[i] == o;
          }
        }
      } else {
        assert b.targets[|more|] in b.targets;
      }
    }
  }

  ghost predicate IsOutputOf(b: Board, o: Output) {
    exists t :: t in b.targets && t.variant in b.rendered && o == Output(t.path, b.rendered[t.variant])
  }

  // ----------------------------------------------------------- what runs promise

  predicate Agree(outputs: seq<Output>) {
    forall i, j | 0 <= i < j < |outputs| && outputs[i].path == outputs[j].path :: outputs[i].text == outputs[j].text
  }

  /** Outputs that share a path agree, and a board's output in the bundle
      directory is a bundle file. */
  predicate Settled(boards: seq<Output>, bundle: seq<Output>, b: Bundle) {
    Agree(boards + bundle) && forall o | o in boards && b.holds(o.path) :: o.path in PathsOf(bundle)
  }

  predicate AllHold(files: Files, outputs: seq<Output>) {
    forall i | 0 <= i < |outputs| :: Holds(files, outputs[i])
  }

  lemma {:induction false} WritesNothingIff(files: Files, outputs: seq<Output>)
    ensures Writes(files, outputs) == 0 <==> AllHold(files, outputs)
    ensures AllHold(files, outputs) ==> Written(files, outputs) == files
  {
    if outputs != [] {
      var n := |outputs| - 1;
      WritesNothingIff(files, outputs[..n]);
      assert forall i | 0 <= i < n :: outputs[..n][i] == outputs[i];
    }
  }

  lemma {:induction false} NothingStaleIff(files: Files, outputs: seq<Output>)
    ensures StaleOf(files, outputs) == [] <==> AllHold(files, outputs)
  {
    if outputs != [] {
      var n := |outputs| - 1;
      NothingStaleIff(files, outputs[..n]);
      assert forall i | 0 <= i < n :: outputs[..n][i] == outputs[i];
    }
  }

  lemma {:induction false} WrittenHolds(files: Files, outputs: seq<Output>)
    ensures forall i | 0 <= i < |outputs| :: outputs[i].path in Written(files, outputs)
    ensures Agree(outputs) ==> AllHold(Written(files, outputs), outputs)
  {
    if outputs != [] {
      var n := |outputs| - 1;
      WrittenHolds(files, outputs[..n]);
      assert forall i | 0 <= i < n :: outputs[..n][i] == outputs[i];
    }
  }

  lemma {:induction false} NoLeftOversIff(paths: seq<Path>, kept: set<Path>)
    ensures LeftOvers(paths, kept) == [] <==> forall p | p in paths :: p in kept
  {
    if paths != [] {
      NoLeftOversIff(paths[..|paths| - 1], kept);
      assert paths == paths[..|paths| - 1] + [paths[|paths| - 1]];
    }
  }

  /** A write run leaves the bundle directory holding exactly the bundle files. */
  lemma BundleIsExact(files: Files, boards: seq<Output>, bundle: seq<Output>, b: Bundle)
    requires forall o | o in bundle :: b.holds(o.path)
    ensures InBundle(Generated(files, boards, bundle, b), b) == PathsOf(bundle)
  {
    WrittenHolds(files, boards + bundle);
    forall p | p in PathsOf(bundle) ensures p in Written(files, boards + bundle) {
      var i :| 0 <= i < |bundle| && bundle[i].path == p;
      assert (boards + bundle)[|boards| + i] == bundle[i];
    }
  }

  /** After a write run every output holds exactly when the outputs are settled. */
  lemma SettledIff(files: Files, boards: seq<Output>, bundle: seq<Output>, b: Bundle)
    ensures AllHold(Generated(files, boards, bundle, b), boards + bundle) <==> Settled(boards, bundle, b)
  {
    var all, kept := boards + bundle, PathsOf(bundle);
    var before, after := Written(files, all), Generated(files, boards, bundle, b);
    WrittenHolds(files, all);
    if AllHold(after, all) {
      forall o | o in boards && b.holds(o.path) ensures o.path in kept {
        var i :| 0 <= i < |boards| && boards[i] == o;
        assert all[i] == o && Holds(after, all[i]);
      }
    }
    if Settled(boards, bundle, b) {
      forall i | 0 <= i < |all| ensures Holds(after, all[i]) {
        assert Holds(before, all[i]);
        if i < |boards| { assert all[i] == boards[i]; } else { assert all[i] == bundle[i - |boards|]; }
      }
    }
  }

  /** Another write run then writes and removes nothing, and a check run finds
      nothing stale or left over, exactly when the outputs are settled. */
  lemma SecondRun(files: Files, boards: seq<Output>, bundle: seq<Output>, b: Bundle)
    requires IsListing(b) && forall o | o in bundle :: b.holds(o.path)
    ensures
      var after := Generated(files, boards, bundle, b);
      var all := boards + bundle;
      && (Writes(after, all) == 0 <==> Settled(boards, bundle, b))
      && (OutOfSync(after, boards, bundle, b) == [] <==> Settled(boards, bundle, b))
      && (Settled(boards, bundle, b) ==> Generated(after, boards, bundle, b) == after && InBundle(Written(after, all), b) - PathsOf(bundle) == {})
  {
    var after := Generated(files, boards, bundle, b);
    var all, kept := boards + bundle, PathsOf(bundle);
    SettledIff(files, boards, bundle, b);
    WritesNothingIff(after, all);
    NothingStaleIff(after, all);
    BundleIsExact(files, boards, bundle, b);
    NoLeftOversIff(b.sorted(InBundle(after, b)), kept);
  }

  /** A check run is silent, marks apart, exactly on files a write run would
      neither write nor remove anything of. */
  lemma CheckForetells(files: Files, boards: seq<Output>, bundle: seq<Output>, b: Bundle)
    requires IsListing(b)
    ensures OutOfSync(files, boards, bundle, b) == [] <==>
      Writes(files, boards + bundle) == 0 && InBundle(Written(files, boards + bundle), b) - PathsOf(bundle) == {}
    ensures OutOfSync(files, boards, bundle, b) == [] ==> Generated(files, boards, bundle, b) == files
  {
    var all := boards + bundle;
    WritesNothingIff(files, all);
    NothingStaleIff(files, all);
    NoLeftOversIff(b.sorted(InBundle(files, b)), PathsOf(bundle));
    if InBundle(files, b) - PathsOf(bundle) == {} {
      forall p | p in InBundle(files, b) ensures p in PathsOf(bundle) {
        assert p !in InBundle(files, b) - PathsOf(bundle);
      }
    }
  }

  /** Generate, generate again, check. */
  method GenerateTwice(disk: Disk, boards: seq<Board>, bundle: seq<Output>, b: Bundle, unmarked: seq<Path>)
    returns (first: Outcome, second: Outcome, check: Outcome, stale: seq<Stale>)
    requires IsListing(b) && forall o | o in bundle :: b.holds(o.path)
    modifies disk
    ensures first.Done? ==>
      && second.Done? && check.Done? && InBundle(disk.files, b) == PathsOf(bundle)
      && (second.written == 0 <==> Settled(BoardOutputs(boards).0, bundle, b))
      && (stale == UnmarkedOf(unmarked) <==> Settled(BoardOutputs(boards).0, bundle, b))
  {
    ghost var outputs := BoardOutputs(boards).0;
    ghost var start := disk.files;
    first, stale := disk.Run(boards, bundle, b, unmarked, Write);
    if !first.Done? {
      return first, first, first, stale;
    }
    ghost var after := disk.files;
    SecondRun(start, outputs, bundle, b);
    second, stale := disk.Run(boards, bundle, b, unmarked, Write);
    BundleIsExact(after, outputs, bundle, b);
    SecondRun(after, outputs, bundle, b);
    check, stale := disk.Run(boards, bundle, b, unmarked, Check);
    assert |stale| == |OutOfSync(disk.files, outputs, bundle, b)| + |unmarked|;
  }
}
