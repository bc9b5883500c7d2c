/**
 * The mirror: a standby copies the leader's directory file by file.  Journals are fetched from where
 * the local copy ends, everything else as a whole.  The leader may write, delete and re-create files
 * between the manifest and any fetch, and a fetch may break off.
 */
module Mirror {
  import opened Wrappers
  import opened Bytes

  type Path = nat

  datatype Info = Info(size: nat, mtime: nat)

  /** `born` tells files of one path apart: the time it was created.  Neither side looks at it. */
  datatype File = File(content: bytes, mtime: nat, born: nat)

  // ---- one path -------------------------------------------------------------------------------

  /** Everything that concerns one path: the leader's file, the local copy, what it was last fetched as,
      the entry of a manifest still to be worked on, and the one file all of the copy was fetched from,
      if it was one. */
  datatype Cell = Cell(remote: Option<File>, copy: Option<bytes>, last: Option<Info>, todo: Option<Info>,
                       origin: Option<nat>)

  function Previous(x: Cell): Info {
    if x.last.Some? then x.last.value else Info(0, 0)
  }

  /** The local copy has the manifest's size, and the manifest's entry is the one it was fetched as. */
  predicate UpToDate(x: Cell) {
    x.todo.Some? && x.copy.Some? && |x.copy.value| == x.todo.value.size && Previous(x) == x.todo.value
  }

  /** Where a fetch starts: at the end of a journal whose local copy has the size last fetched. */
  function Offset(journal: bool, x: Cell): nat {
    if x.todo.Some? && x.copy.Some? && journal
       && |x.copy.value| < x.todo.value.size && Previous(x).size == |x.copy.value|
    then |x.copy.value| else 0
  }

  ghost predicate Prefix(a: bytes, b: bytes) {
    |a| <= |b| && b[..|a|] == a
  }

  /** What the leader sends from an offset on; behind the end of the file that is nothing. */
  function Rest(content: bytes, off: nat): bytes {
    if off <= |content| then content[off..] else []
  }

  /** A fetch that came through: the whole file, or the rest behind the local copy. */
  function Fetched(journal: bool, x: Cell): Cell
    requires x.todo.Some? && x.remote.Some?
  {
    var off, f := Offset(journal, x), x.remote.value;
    x.(copy := Some(if off > 0 then x.copy.value + Rest(f.content, off) else f.content),
       last := x.todo, todo := None,
       origin := if off == 0 || x.origin == Some(f.born) then Some(f.born) else None)
  }

  /** A fetch that broke off after n bytes: an append leaves them behind, a whole file is discarded. */
  function Broken(journal: bool, x: Cell, n: nat): Cell
    requires x.todo.Some? && x.remote.Some?
  {
    var rest := Rest(x.remote.value.content, Offset(journal, x));
    if Offset(journal, x) > 0 then x.(copy := Some(x.copy.value + rest[..if n < |rest| then n else |rest|])) else x
  }

  /** A fetch leaves the leader's file exactly when it took all of it, or the copy was a prefix of it. */
  lemma {:induction false} FetchedIsRemoteIff(journal: bool, x: Cell)
    requires x.todo.Some? && x.remote.Some?
    ensures Fetched(journal, x).copy == Some(x.remote.value.content)
       <==> Offset(journal, x) == 0 || Prefix(x.copy.value, x.remote.value.content)
  {
    var off, content := Offset(journal, x), x.remote.value.content;
    if 0 < off <= |content| {
      assert content == content[..off] + content[off..];
      var got := x.copy.value + content[off..];
      if got == content { assert got[..off] == x.copy.value; }
    }
  }

  // ---- what holds between the two sides -------------------------------------------------------

  /** A journal's copy that was fetched from the leader's present file, and has the size last fetched,
      is a prefix of it. */
  ghost predicate JournalOk(x: Cell) {
    x.remote.Some? && x.origin == Some(x.remote.value.born)
    && x.last.Some? && x.copy.Some? && x.last.value.size == |x.copy.value|
    ==> Prefix(x.copy.value, x.remote.value.content)
  }

  /** A copy from one file, not written since the manifest it was fetched under, is equal to it. */
  ghost predicate EqualOk(x: Cell) {
    x.origin.Some? && x.last.Some? && x.remote.Some? && x.last.value.mtime == x.remote.value.mtime ==>
      x.copy == Some(x.remote.value.content) && x.last.value.size == |x.remote.value.content|
  }

  /** Times only grow, so an entry can only be older than the file. */
  ghost predicate TimesOk(clock: nat, x: Cell) {
    && (x.remote.Some? ==> 0 < x.remote.value.mtime <= clock && x.remote.value.born <= clock)
    && (x.origin.Some? ==> x.origin.value <= clock)
    && (x.last.Some? ==> 0 < x.last.value.mtime <= clock)
    && (x.last.Some? && x.remote.Some? ==> x.last.value.mtime <= x.remote.value.mtime)
  }

  ghost predicate TodoOk(clock: nat, x: Cell) {
    x.todo.Some? ==>
      && 0 < x.todo.value.mtime <= clock
      && (x.last.Some? ==> x.last.value.mtime <= x.todo.value.mtime)
      && (x.remote.Some? ==> x.todo.value.mtime <= x.remote.value.mtime)
      && (x.remote.Some? && x.todo.value.mtime == x.remote.value.mtime ==>
            x.todo.value.size == |x.remote.value.content|)
  }

  ghost predicate CellOk(journal: bool, clock: nat, x: Cell) {
    (journal ==> JournalOk(x)) && EqualOk(x) && TimesOk(clock, x) && TodoOk(clock, x)
  }

  lemma {:induction false} FetchedOk(journal: bool, clock: nat, x: Cell)
    requires CellOk(journal, clock, x) && x.todo.Some? && x.remote.Some?
    ensures CellOk(journal, clock, Fetched(journal, x))
  {
    FetchedIsRemoteIff(journal, x);
  }

  lemma {:induction false} BrokenOk(journal: bool, clock: nat, x: Cell, n: nat)
    requires CellOk(journal, clock, x) && x.todo.Some? && x.remote.Some? && !UpToDate(x)
    ensures CellOk(journal, clock, Broken(journal, x, n))
  {
    var rest := Rest(x.remote.value.content, Offset(journal, x));
    if Offset(journal, x) > 0 && (n == 0 || rest == []) {
      assert x.copy.value + rest[..if n < |rest| then n else |rest|] == x.copy.value;
    }
  }

  /** What a sync makes of a path while the leader stands still is right: the entry is skipped with an
      equal copy, fetched whole, or fetched behind a prefix. */
  ghost predicate ComesRight(journal: bool, x: Cell)
    requires x.remote.Some?
  {
    if UpToDate(x) then x.copy == Some(x.remote.value.content)
    else Offset(journal, x) == 0 || Prefix(x.copy.value, x.remote.value.content)
  }

  /** The leader's file was not re-created since it was last fetched. */
  ghost predicate Continued(journal: bool, x: Cell)
    requires x.remote.Some?
  {
    x.last.Some? ==> x.origin.Some? && (journal ==> x.origin == Some(x.remote.value.born))
  }

  lemma {:induction false} ContinuedComesRight(journal: bool, clock: nat, x: Cell)
    requires CellOk(journal, clock, x) && x.remote.Some? && Continued(journal, x)
    requires x.todo == Some(Info(|x.remote.value.content|, x.remote.value.mtime))
    ensures ComesRight(journal, x)
  {
  }

  // ---- directories and runs -------------------------------------------------------------------

  type Dir = map<Path, File>
  type Local = map<Path, bytes>
  type Infos = map<Path, Info>

  /** Which paths are journals, and which ones this node mirrors. */
  datatype Policy = Policy(journal: Path -> bool, only: Path -> bool)

  /** A sync under way: manifest entries not worked on yet, all paths of the manifest, and the local
      paths when it began. */
  datatype Sync = Sync(todo: Infos, seen: set<Path>, had: set<Path>)

  datatype World = World(leader: Dir, clock: nat, local: Local, last: Infos, origin: map<Path, nat>,
                         sync: Option<Sync>)

  function Get<T>(m: map<Path, T>, p: Path): Option<T> {
    if p in m then Some(m[p]) else None
  }

  function Todo(w: World, p: Path): Option<Info> {
    if w.sync.Some? then Get(w.sync.value.todo, p) else None
  }

  function CellAt(w: World, p: Path): Cell {
    Cell(Get(w.leader, p), Get(w.local, p), Get(w.last, p), Todo(w, p), Get(w.origin, p))
  }

  ghost predicate Inv(k: Policy, w: World) {
    forall p: Path :: CellOk(k.journal(p), w.clock, CellAt(w, p))
  }

  function Manifest(k: Policy, leader: Dir): Infos {
    map p <- leader | k.only(p) :: Info(|leader[p].content|, leader[p].mtime)
  }

  /** The leader may do anything at any time: replace or create a file, append to one, delete one. */
  datatype Action =
    | Write(p: Path, content: bytes)
    | Grow(p: Path, more: bytes)
    | Delete(p: Path)
    | Begin | Skip(p: Path) | Fetch(p: Path) | Break(p: Path, n: nat) | Abort | Finish

  predicate Working(w: World, p: Path) {
    w.sync.Some? && p in w.sync.value.todo
  }

  predicate Enabled(w: World, a: Action) {
    match a
    case Write(_, _) => true
    case Grow(_, _) => true
    case Delete(_) => true
    case Begin => w.sync.None?
    case Skip(p) => Working(w, p) && UpToDate(CellAt(w, p))
    case Fetch(p) => Working(w, p) && !UpToDate(CellAt(w, p)) && p in w.leader
    case Break(p, n) => Working(w, p) && !UpToDate(CellAt(w, p)) && p in w.leader
    case Abort => w.sync.Some?
    case Finish => w.sync.Some? && w.sync.value.todo == map[]
  }

  function Gone(k: Policy, w: World): set<Path>
    requires w.sync.Some?
  {
    set p <- w.sync.value.had | k.only(p) && p !in w.sync.value.seen
  }

  function Put<T>(m: map<Path, T>, p: Path, v: Option<T>): map<Path, T> {
    if v.Some? then m[p := v.value] else m - {p}
  }

  function Grown(w: World, p: Path, more: bytes): File {
    if p in w.leader then File(w.leader[p].content + more, w.clock + 1, w.leader[p].born)
    else File(more, w.clock + 1, w.clock + 1)
  }

  function Next(k: Policy, w: World, a: Action): World
    requires Enabled(w, a)
  {
    match a
    case Write(p, content) =>
      w.(leader := w.leader[p := File(content, w.clock + 1, w.clock + 1)], clock := w.clock + 1)
    case Grow(p, more) => w.(leader := w.leader[p := Grown(w, p, more)], clock := w.clock + 1)
    case Delete(p) => w.(leader := w.leader - {p})
    case Begin =>
      var m := Manifest(k, w.leader);
      w.(sync := Some(Sync(m, m.Keys, w.local.Keys)))
    case Skip(p) => w.(sync := Some(w.sync.value.(todo := w.sync.value.todo - {p})))
    case Fetch(p) =>
      var x := Fetched(k.journal(p), CellAt(w, p));
      w.(local := Put(w.local, p, x.copy), last := Put(w.last, p, x.last), origin := Put(w.origin, p, x.origin),
         sync := Some(w.sync.value.(todo := w.sync.value.todo - {p})))
    case Break(p, n) => w.(local := Put(w.local, p, Broken(k.journal(p), CellAt(w, p), n).copy), sync := None)
    case Abort => w.(sync := None)
    case Finish =>
      w.(local := w.local - Gone(k, w), last := w.last - Gone(k, w), origin := w.origin - Gone(k, w), sync := None)
  }

  /** Only one path changes, and the clock only grows. */
  lemma {:induction false} Elsewhere(k: Policy, w: World, a: Action, p: Path)
    requires Enabled(w, a)
    requires a.Write? || a.Grow? || a.Delete? || a.Skip? || a.Fetch?
    requires p != a.p && CellOk(k.journal(p), w.clock, CellAt(w, p))
    ensures CellOk(k.journal(p), Next(k, w, a).clock, CellAt(Next(k, w, a), p))
  {
  }

  lemma {:induction false} LeaderStep(k: Policy, w: World, a: Action, p: Path)
    requires Enabled(w, a) && (a.Write? || a.Grow? || a.Delete?) && p == a.p
    requires CellOk(k.journal(p), w.clock, CellAt(w, p))
    ensures CellOk(k.journal(p), Next(k, w, a).clock, CellAt(Next(k, w, a), p))
  {
  }

  lemma {:induction false} SyncStep(k: Policy, w: World, a: Action, p: Path)
    requires Enabled(w, a) && (a.Skip? || a.Fetch?) && p == a.p
    requires CellOk(k.journal(p), w.clock, CellAt(w, p))
    ensures CellOk(k.journal(p), Next(k, w, a).clock, CellAt(Next(k, w, a), p))
  {
    if a.Fetch? { FetchedOk(k.journal(p), w.clock, CellAt(w, p)); }
  }

  lemma {:induction false} EndStep(k: Policy, w: World, a: Action, p: Path)
    requires Enabled(w, a) && (a.Begin? || a.Abort? || a.Finish?)
    requires CellOk(k.journal(p), w.clock, CellAt(w, p))
    ensures CellOk(k.journal(p), Next(k, w, a).clock, CellAt(Next(k, w, a), p))
  {
  }

  lemma {:induction false} BreakStep(k: Policy, w: World, a: Action, p: Path)
    requires Enabled(w, a) && a.Break?
    requires CellOk(k.journal(p), w.clock, CellAt(w, p))
    ensures CellOk(k.journal(p), Next(k, w, a).clock, CellAt(Next(k, w, a), p))
  {
    if p == a.p { BrokenOk(k.journal(p), w.clock, CellAt(w, p), a.n); }
  }

  lemma {:induction false} Step(k: Policy, w: World, a: Action)
    requires Inv(k, w) && Enabled(w, a)
    ensures Inv(k, Next(k, w, a))
  {
    forall p: Path ensures CellOk(k.journal(p), Next(k, w, a).clock, CellAt(Next(k, w, a), p)) {
      assert CellOk(k.journal(p), w.clock, CellAt(w, p));
      if a.Begin? || a.Abort? || a.Finish? {
        EndStep(k, w, a, p);
      } else if a.Break? {
        BreakStep(k, w, a, p);
      } else if a.p != p {
        Elsewhere(k, w, a, p);
      } else if a.Skip? || a.Fetch? {
        SyncStep(k, w, a, p);
      } else {
        LeaderStep(k, w, a, p);
      }
    }
  }

  predicate Run(k: Policy, w: World, acts: seq<Action>)
    decreases |acts|
  {
    acts == [] || (Enabled(w, acts[0]) && Run(k, Next(k, w, acts[0]), acts[1..]))
  }

  function After(k: Policy, w: World, acts: seq<Action>): World
    requires Run(k, w, acts)
    decreases |acts|
  {
    if acts == [] then w else After(k, Next(k, w, acts[0]), acts[1..])
  }

  lemma {:induction false} RunInv(k: Policy, w: World, acts: seq<Action>)
    requires Inv(k, w) && Run(k, w, acts)
    ensures Inv(k, After(k, w, acts))
    decreases |acts|
  {
    if acts != [] {
      Step(k, w, acts[0]);
      RunInv(k, Next(k, w, acts[0]), acts[1..]);
    }
  }

  /** A mirror that has fetched nothing yet, whatever lies in its directory. */
  ghost predicate Fresh(w: World) {
    && w.last == map[] && w.origin == map[] && w.sync.None?
    && forall p <- w.leader :: 0 < w.leader[p].mtime <= w.clock && w.leader[p].born <= w.clock
  }

  /** In every run, whatever the leader writes, deletes and re-creates: the copy of a journal that was not
      re-created since it was fetched, and that has the size last fetched, is a prefix of the leader's,
      even after an append that broke off. */
  lemma {:induction false} JournalsStayPrefixes(k: Policy, w: World, acts: seq<Action>, p: Path)
    requires Fresh(w) && Run(k, w, acts) && k.journal(p)
    ensures var w' := After(k, w, acts);
      && p in w'.leader && p in w'.origin && w'.origin[p] == w'.leader[p].born
      && p in w'.last && p in w'.local && w'.last[p].size == |w'.local[p]|
      ==> Prefix(w'.local[p], w'.leader[p].content)
  {
    assert Inv(k, w);
    RunInv(k, w, acts);
    assert CellOk(k.journal(p), After(k, w, acts).clock, CellAt(After(k, w, acts), p));
  }
}
