/**
 * The alert lifecycle: open, fold, re-open, acknowledge, resolve, archive.  The engine runs one call
 * at a time, but every access to the store is a step of its own, and acknowledgements and manual
 * resolutions from the web may fall between any two of them.
 */
module Alerts {
  import opened Wrappers

  type Id = nat
  type Key = nat

  datatype Status = Open | Acked | Resolved

  datatype Alert = Alert(key: Key, status: Status, severity: nat, rootCause: Id, occurrences: nat, resolvedAt: int,
                         openedAt: int)

  type Book = map<Id, Alert>

  const REOPEN_SECONDS: int := 1800
  const KEEP_SECONDS: int := 86400

  /** What openAlert is called with; no root cause is 0. */
  datatype Request = Request(key: Key, severity: nat, rootCause: Id, now: int)

  predicate Active(a: Alert, key: Key) {
    a.key == key && a.status != Resolved
  }

  predicate Recent(a: Alert, key: Key, now: int) {
    a.key == key && a.status == Resolved && now - a.resolvedAt < REOPEN_SECONDS
  }

  function Fold(a: Alert, r: Request): Alert {
    var raised := if r.severity > a.severity then r.severity else a.severity;
    if r.rootCause != 0 && a.rootCause != r.rootCause
    then a.(occurrences := a.occurrences + 1, rootCause := r.rootCause, severity := r.severity)
    else a.(occurrences := a.occurrences + 1, severity := raised)
  }

  function Reopen(a: Alert): Alert {
    a.(status := Open, occurrences := a.occurrences + 1, resolvedAt := 0)
  }

  function Create(r: Request): Alert {
    Alert(r.key, Open, r.severity, r.rootCause, 1, 0, r.now)
  }

  function Resolve(a: Alert, now: int): Alert {
    a.(status := Resolved, resolvedAt := now)
  }

  function Acknowledge(a: Alert): Alert {
    if a.status == Open then a.(status := Acked) else a
  }

  /** UpdateAlert does nothing when the alert is gone. */
  function Update(book: Book, id: Id, f: Alert -> Alert): Book {
    if id in book then book[id := f(book[id])] else book
  }

  // ---- the store and the engine's calls -------------------------------------------------------

  /** At most one unresolved alert per dedup key. */
  ghost predicate Unique(book: Book) {
    forall i, j :: i in book && j in book && Active(book[i], book[j].key) && book[j].status != Resolved ==> i == j
  }

  ghost predicate NoneActive(book: Book, key: Key) {
    forall i :: i in book ==> !Active(book[i], key)
  }

  ghost predicate NoneRecent(book: Book, key: Key, now: int) {
    forall i :: i in book ==> !Recent(book[i], key, now)
  }

  class AlertStore {
    var book: Book

    method ByDedup(key: Key) returns (found: Option<Id>)
      ensures found.Some? ==> found.value in book && Active(book[found.value], key)
      ensures found.None? ==> NoneActive(book, key)
    {
      var todo := book.Keys;
      while todo != {}
        invariant todo <= book.Keys
        invariant forall i :: i in book && i !in todo ==> !Active(book[i], key)
      {
        var id :| id in todo;
        if Active(book[id], key) {
          return Some(id);
        }
        todo := todo - {id};
      }
      found := None;
    }

    method RecentlyResolved(key: Key, now: int) returns (found: Option<Id>)
      ensures found.Some? ==> found.value in book && Recent(book[found.value], key, now)
      ensures found.None? ==> NoneRecent(book, key, now)
    {
      var todo := book.Keys;
      while todo != {}
        invariant todo <= book.Keys
        invariant forall i :: i in book && i !in todo ==> !Recent(book[i], key, now)
      {
        var id :| id in todo;
        if Recent(book[id], key, now) {
          return Some(id);
        }
        todo := todo - {id};
      }
      found := None;
    }

    /** An undisturbed call: an active alert is folded, else a recent one re-opened, else a new one made;
        no other alert changes, and the key has its one active alert. */
    method OpenAlert(r: Request, newId: Id) returns (id: Id)
      requires newId !in book
      modifies this
      ensures id in book && book.Keys == old(book.Keys) + {id}
      ensures forall i :: i in old(book) && i != id ==> book[i] == old(book[i])
      ensures Active(book[id], r.key)
      ensures NoneActive(old(book), r.key) ||
        (id in old(book) && Active(old(book[id]), r.key) && book[id] == Fold(old(book[id]), r))
      ensures NoneActive(old(book), r.key) && !NoneRecent(old(book), r.key, r.now) ==>
        id in old(book) && Recent(old(book[id]), r.key, r.now) && book[id] == Reopen(old(book[id]))
      ensures NoneActive(old(book), r.key) && NoneRecent(old(book), r.key, r.now) ==>
        id == newId && book[id] == Create(r)
      ensures Unique(old(book)) ==> Unique(book)
      ensures id !in old(book) <==> forall i :: i in old(book) && old(book[i]).key == r.key ==>
        old(book[i]).status == Resolved && r.now - old(book[i]).resolvedAt >= 1800
    {
      var found := ByDedup(r.key);
      if found.Some? {
        id := found.value;
        book := book[id := Fold(book[id], r)];
        return;
      }
      found := RecentlyResolved(r.key, r.now);
      if found.Some? {
        id := found.value;
        book := book[id := Reopen(book[id])];
        return;
      }
      id := newId;
      book := book[id := Create(r)];
    }
  }

  // ---- every interleaving ---------------------------------------------------------------------

  /** Where the engine stands inside a call. */
  datatype Pc =
    | Idle
    | Found(r: Request, id: Id)              // AlertByDedup found the alert to fold
    | Missing(r: Request)                    // it found none
    | Reopening(r: Request, id: Id)          // a recently resolved alert was picked
    | Creating(r: Request)                   // there was none to re-open
    | Resolving(id: Id, now: int)            // resolveAlert found the alert

  /** `calls` counts the finished calls of openAlert per key, `used` holds the ids given out. */
  datatype World = World(book: Book, archive: seq<Alert>, pc: Pc, calls: map<Key, nat>, used: set<Id>)

  datatype Action =
    | LookFound(r: Request, id: Id) | LookMissing(r: Request) | DoFold
    | PickRecent(id: Id) | PickNone | DoReopen | DoCreate(id: Id)
    | ResolveCall(key: Key, now: int, id: Id) | DoResolve
    | Archive(id: Id, now: int)
    | Ack(id: Id) | ManualResolve(id: Id, now: int)

  ghost predicate Enabled(w: World, a: Action) {
    match a
    case LookFound(r, id) => w.pc == Idle && id in w.book && Active(w.book[id], r.key)
    case LookMissing(r) => w.pc == Idle && NoneActive(w.book, r.key)
    case DoFold => w.pc.Found?
    case PickRecent(id) => w.pc.Missing? && id in w.book && Recent(w.book[id], w.pc.r.key, w.pc.r.now)
    case PickNone => w.pc.Missing? && NoneRecent(w.book, w.pc.r.key, w.pc.r.now)
    case DoReopen => w.pc.Reopening?
    case DoCreate(id) => w.pc.Creating? && id !in w.used
    case ResolveCall(key, now, id) => w.pc == Idle && id in w.book && Active(w.book[id], key)
    case DoResolve => w.pc.Resolving?
    case Archive(id, now) => w.pc == Idle && id in w.book && w.book[id].status == Resolved
      && now - w.book[id].resolvedAt > KEEP_SECONDS
    case Ack(_) => true
    case ManualResolve(_, _) => true
  }

  function Calls(w: World, key: Key): nat {
    if key in w.calls then w.calls[key] else 0
  }

  function Done(w: World, key: Key): World {
    w.(pc := Idle, calls := w.calls[key := Calls(w, key) + 1])
  }

  ghost function Next(w: World, a: Action): World
    requires Enabled(w, a)
  {
    match a
    case LookFound(r, id) => w.(pc := Found(r, id))
    case LookMissing(r) => w.(pc := Missing(r))
    case DoFold => Done(w.(book := Update(w.book, w.pc.id, x => Fold(x, w.pc.r))), w.pc.r.key)
    case PickRecent(id) => w.(pc := Reopening(w.pc.r, id))
    case PickNone => w.(pc := Creating(w.pc.r))
    case DoReopen => Done(w.(book := Update(w.book, w.pc.id, x => Reopen(x))), w.pc.r.key)
    case DoCreate(id) => Done(w.(book := w.book[id := Create(w.pc.r)], used := w.used + {id}), w.pc.r.key)
    case ResolveCall(key, now, id) => w.(pc := Resolving(id, now))
    case DoResolve => w.(pc := Idle, book := Update(w.book, w.pc.id, x => Resolve(x, w.pc.now)))
    case Archive(id, _) => w.(book := w.book - {id}, archive := w.archive + [w.book[id]])
    case Ack(id) => w.(book := Update(w.book, id, x => Acknowledge(x)))
    case ManualResolve(id, now) => w.(book := Update(w.book, id, x => Resolve(x, now)))
  }

  // ---- counting occurrences -------------------------------------------------------------------

  function Weight(a: Alert, key: Key): nat {
    if a.key == key then a.occurrences else 0
  }

  ghost function Total(book: Book, key: Key): nat
    decreases |book|
  {
    if book == map[] then 0
    else
      var id :| id in book;
      Weight(book[id], key) + Total(book - {id}, key)
  }

  /** Any alert can be taken out first. */
  lemma {:induction false} TotalWithout(book: Book, id: Id, key: Key)
    requires id in book
    ensures Total(book, key) == Weight(book[id], key) + Total(book - {id}, key)
    decreases |book|
  {
    var first: Id :| first in book && Total(book, key) == Weight(book[first], key) + Total(book - {first}, key);
    if first != id {
      TotalWithout(book - {first}, id, key);
      TotalWithout(book - {id}, first, key);
      assert book - {first} - {id} == book - {id} - {first};
    }
  }

  lemma {:induction false} TotalUpdate(book: Book, id: Id, a: Alert, key: Key)
    ensures Total(book[id := a], key) + (if id in book then Weight(book[id], key) else 0)
      == Total(book, key) + Weight(a, key)
  {
    TotalWithout(book[id := a], id, key);
    if id in book {
      TotalWithout(book, id, key);
      assert book[id := a] - {id} == book - {id};
    } else {
      assert book[id := a] - {id} == book;
    }
  }

  function Archived(archive: seq<Alert>, key: Key): nat {
    if archive == [] then 0 else Archived(archive[..|archive| - 1], key) + Weight(archive[|archive| - 1], key)
  }

  /** No occurrence is lost or counted twice: for every key, alerts in the book and in the archive
      together show as many occurrences as openAlert was called. */
  ghost predicate Balanced(w: World) {
    forall key: Key :: Total(w.book, key) + Archived(w.archive, key) == Calls(w, key)
  }

  // ---- the invariant --------------------------------------------------------------------------

  ghost predicate PcOk(book: Book, pc: Pc) {
    match pc
    case Idle => true
    case Found(r, id) => id in book && book[id].key == r.key
    case Missing(r) => NoneActive(book, r.key)
    case Reopening(r, id) => NoneActive(book, r.key) && id in book && book[id].key == r.key
    case Creating(r) => NoneActive(book, r.key)
    case Resolving(id, _) => true
  }

  ghost predicate Inv(w: World) {
    Unique(w.book) && PcOk(w.book, w.pc) && w.book.Keys <= w.used && Balanced(w)
  }

  /** An update that neither wakes an alert nor changes its key. */
  ghost predicate Calm(a: Alert, a': Alert) {
    a'.key == a.key && a'.occurrences == a.occurrences && (a.status == Resolved ==> a'.status == Resolved)
  }

  lemma {:induction false} CalmStep(w: World, id: Id, a': Alert)
    requires Inv(w) && id in w.book && Calm(w.book[id], a')
    ensures Inv(w.(book := w.book[id := a']))
  {
    forall key: Key { TotalUpdate(w.book, id, a', key); }
  }

  /** Counting one more occurrence finishes a call. */
  lemma {:induction false} CountStep(w: World, id: Id, a': Alert, key: Key)
    requires Balanced(w) && a'.key == key
    requires if id in w.book then w.book[id].key == key && a'.occurrences == w.book[id].occurrences + 1
             else a'.occurrences == 1
    ensures Balanced(Done(w.(book := w.book[id := a']), key))
  {
    forall k: Key { TotalUpdate(w.book, id, a', k); }
  }

  lemma {:induction false} ArchiveStep(w: World, id: Id)
    requires Inv(w) && w.pc == Idle && id in w.book
    ensures Inv(w.(book := w.book - {id}, archive := w.archive + [w.book[id]]))
  {
    var w' := w.(book := w.book - {id}, archive := w.archive + [w.book[id]]);
    forall key: Key ensures Total(w'.book, key) + Archived(w'.archive, key) == Calls(w', key) {
      TotalWithout(w.book, id, key);
      assert (w.archive + [w.book[id]])[..|w.archive|] == w.archive;
    }
  }

  /** The two updates that make an alert active: no other alert of the key is. */
  lemma {:induction false} WakeStep(book: Book, id: Id, a': Alert)
    requires Unique(book) && NoneActive(book, a'.key)
    ensures Unique(book[id := a'])
  {
  }

  lemma {:induction false} FoldStep(w: World)
    requires Inv(w) && w.pc.Found?
    ensures Inv(Next(w, DoFold))
  {
    var id, r := w.pc.id, w.pc.r;
    CountStep(w, id, Fold(w.book[id], r), r.key);
  }

  lemma {:induction false} OpenStep(w: World, id: Id, a': Alert, key: Key)
    requires Inv(w) && NoneActive(w.book, key) && a'.key == key
    requires if id in w.book then w.book[id].key == key && a'.occurrences == w.book[id].occurrences + 1
             else a'.occurrences == 1
    ensures Inv(Done(w.(book := w.book[id := a'], used := w.used + {id}), key))
  {
    CountStep(w, id, a', key);
    WakeStep(w.book, id, a');
  }

  lemma {:induction false} Step(w: World, a: Action)
    requires Inv(w) && Enabled(w, a)
    ensures Inv(Next(w, a))
  {
    match a
    case DoFold => FoldStep(w);
    case DoReopen =>
      OpenStep(w, w.pc.id, Reopen(w.book[w.pc.id]), w.pc.r.key);
      assert w.used + {w.pc.id} == w.used;
    case DoCreate(id) => OpenStep(w, id, Create(w.pc.r), w.pc.r.key);
    case DoResolve => if w.pc.id in w.book { CalmStep(w, w.pc.id, Resolve(w.book[w.pc.id], w.pc.now)); }
    case Archive(id, _) => ArchiveStep(w, id);
    case Ack(id) => if id in w.book { CalmStep(w, id, Acknowledge(w.book[id])); }
    case ManualResolve(id, now) => if id in w.book { CalmStep(w, id, Resolve(w.book[id], now)); }
    case _ =>
  }

  ghost predicate Run(w: World, acts: seq<Action>)
    decreases |acts|
  {
    acts == [] || (Enabled(w, acts[0]) && Run(Next(w, acts[0]), acts[1..]))
  }

  ghost function After(w: World, acts: seq<Action>): World
    requires Run(w, acts)
    decreases |acts|
  {
    if acts == [] then w else After(Next(w, acts[0]), acts[1..])
  }

  const EMPTY: World := World(map[], [], Idle, map[], {})

  lemma {:induction false} RunInv(w: World, acts: seq<Action>)
    requires Inv(w) && Run(w, acts)
    ensures Inv(After(w, acts))
    decreases |acts|
  {
    if acts != [] {
      Step(w, acts[0]);
      RunInv(Next(w, acts[0]), acts[1..]);
    }
  }

  /** In every interleaving: one active alert per key at most, and every call of openAlert is counted
      on exactly one alert. */
  lemma {:induction false} AlertsStayUnique(acts: seq<Action>)
    requires Run(EMPTY, acts)
    ensures Unique(After(EMPTY, acts).book) && Balanced(After(EMPTY, acts))
  {
    assert Balanced(EMPTY);
    RunInv(EMPTY, acts);
  }

  /** The lookup's arbitrary map order does not matter: there is at most one alert to find. */
  lemma {:induction false} LookupIsDeterministic(w: World, r: Request, i: Id, j: Id)
    requires Inv(w) && Enabled(w, LookFound(r, i)) && Enabled(w, LookFound(r, j))
    ensures i == j
  {
  }

  /** When a call ends by re-opening or creating, its key has exactly one active alert. */
  lemma {:induction false} OpenedIsActive(w: World, a: Action)
    requires Inv(w) && Enabled(w, a) && (a.DoReopen? || a.DoCreate?)
    ensures var book, key := Next(w, a).book, w.pc.r.key;
      exists i :: i in book && Active(book[i], key) && forall j :: j in book && Active(book[j], key) ==> j == i
  {
    Step(w, a);
    var id := if a.DoReopen? then w.pc.id else a.id;
    assert Active(Next(w, a).book[id], w.pc.r.key);
  }

  // ---- what an alert shows --------------------------------------------------------------------

  /** What happens to an alert: raised again, re-opened, acknowledged, closed. */
  datatype Event = Again(r: Request) | Woken | Taken | Closed(now: int)

  function Undergone(a: Alert, e: Event): Alert {
    match e
    case Again(r) => Fold(a, r)
    case Woken => Reopen(a)
    case Taken => Acknowledge(a)
    case Closed(now) => Resolve(a, now)
  }

  function Fate(a: Alert, es: seq<Event>): Alert {
    if es == [] then a else Undergone(Fate(a, es[..|es| - 1]), es[|es| - 1])
  }

  /** The requests that went into an alert: the one it was made for, and those folded into it. */
  function Requests(first: Request, es: seq<Event>): seq<Request> {
    if es == [] then [first]
    else Requests(first, es[..|es| - 1]) + if es[|es| - 1].Again? then [es[|es| - 1].r] else []
  }

  function Raised(es: seq<Event>): nat {
    if es == [] then 0
    else Raised(es[..|es| - 1]) + if es[|es| - 1].Again? || es[|es| - 1].Woken? then 1 else 0
  }

  /** The last root cause that was named. */
  function CauseOf(rs: seq<Request>): Id {
    if rs == [] then 0
    else if rs[|rs| - 1].rootCause != 0 then rs[|rs| - 1].rootCause
    else CauseOf(rs[..|rs| - 1])
  }

  /** The first request, and every one that names another root cause than the last one named. */
  predicate Changes(rs: seq<Request>, i: nat)
    requires i < |rs|
  {
    i == 0 || (rs[i].rootCause != 0 && rs[i].rootCause != CauseOf(rs[..i]))
  }

  ghost predicate LastChange(rs: seq<Request>, k: nat) {
    k < |rs| && Changes(rs, k) && forall j :: k < j < |rs| ==> !Changes(rs, j)
  }

  /** The highest severity requested from k on. */
  ghost predicate HighestFrom(rs: seq<Request>, k: nat, severity: nat) {
    (exists j :: k <= j < |rs| && rs[j].severity == severity)
    && forall j :: k <= j < |rs| ==> rs[j].severity <= severity
  }

  ghost predicate ClosedLast(es: seq<Event>) {
    exists i :: 0 <= i < |es| && es[i].Closed? && forall j :: i < j < |es| ==> !es[j].Woken?
  }

  ghost predicate TakenLast(es: seq<Event>) {
    exists i :: 0 <= i < |es| && es[i].Taken? && forall j :: i < j < |es| ==> !es[j].Woken?
  }

  lemma {:induction false} LastOne(es: seq<Event>, e: Event)
    ensures ClosedLast(es + [e]) <==> e.Closed? || (ClosedLast(es) && !e.Woken?)
    ensures TakenLast(es + [e]) <==> e.Taken? || (TakenLast(es) && !e.Woken?)
  {
    var fs := es + [e];
    assert forall i :: 0 <= i < |es| ==> fs[i] == es[i];
    assert fs[|es|] == e;
  }

  lemma {:induction false} ChangesStay(rs: seq<Request>, r: Request, i: nat)
    requires i < |rs|
    ensures Changes(rs + [r], i) <==> Changes(rs, i)
  {
    assert (rs + [r])[..i] == rs[..i];
  }

  /** One more request raises the severity, or sets it anew when the root cause changes. */
  lemma {:induction false} SeverityStep(rs: seq<Request>, r: Request, severity: nat)
    requires rs != [] && forall k: nat :: LastChange(rs, k) ==> HighestFrom(rs, k, severity)
    ensures CauseOf(rs + [r]) == if r.rootCause != 0 then r.rootCause else CauseOf(rs)
    ensures var changed := r.rootCause != 0 && r.rootCause != CauseOf(rs);
      var severity' := if changed || r.severity > severity then r.severity else severity;
      forall k: nat :: LastChange(rs + [r], k) ==> HighestFrom(rs + [r], k, severity')
  {
    var all := rs + [r];
    assert all[..|rs|] == rs && all[|rs|] == r;
    var severity' :=
      if (r.rootCause != 0 && r.rootCause != CauseOf(rs)) || r.severity > severity then r.severity else severity;
    forall k: nat | LastChange(all, k) ensures HighestFrom(all, k, severity') {
      if k < |rs| {
        forall j: nat | j < |rs| ensures Changes(all, j) <==> Changes(rs, j) { ChangesStay(rs, r, j); }
        assert !Changes(all, |rs|);
        assert LastChange(rs, k) && HighestFrom(rs, k, severity);
        assert forall j :: 0 <= j < |rs| ==> all[j] == rs[j];
      }
    }
  }

  lemma {:induction false} CauseAndSeverity(first: Request, es: seq<Event>)
    ensures Requests(first, es) != [] && Fate(Create(first), es).rootCause == CauseOf(Requests(first, es))
    ensures forall k: nat :: LastChange(Requests(first, es), k) ==>
      HighestFrom(Requests(first, es), k, Fate(Create(first), es).severity)
  {
    if es == [] {
      assert CauseOf([first]) == first.rootCause by { assert [first][..0] == []; }
    } else {
      var init, e := es[..|es| - 1], es[|es| - 1];
      CauseAndSeverity(first, init);
      if e.Again? {
        SeverityStep(Requests(first, init), e.r, Fate(Create(first), init).severity);
      } else {
        assert Requests(first, init) + [] == Requests(first, init);
      }
    }
  }

  lemma {:induction false} StatusAndCount(first: Request, es: seq<Event>)
    ensures var a := Fate(Create(first), es);
      && a.key == first.key && a.openedAt == first.now && a.occurrences == 1 + Raised(es)
      && (a.status == Resolved <==> ClosedLast(es))
      && (a.status == Acked <==> TakenLast(es) && !ClosedLast(es))
  {
    if es != [] {
      var init, e := es[..|es| - 1], es[|es| - 1];
      assert es == init + [e];
      StatusAndCount(first, init);
      LastOne(init, e);
    }
  }

  /** What an alert shows after any events: it is resolved exactly when it was closed and not re-opened since,
      else acknowledged exactly when it was since it was last open; its root cause is the last one named; its
      severity is the highest requested since that cause came up, even where that is lower than before; its
      occurrences are the calls it stands for. */
  lemma {:induction false} AlertIsHistory(first: Request, es: seq<Event>)
    ensures var a, rs := Fate(Create(first), es), Requests(first, es);
      && a.key == first.key && a.openedAt == first.now && a.occurrences == 1 + Raised(es)
      && (a.status == Resolved <==> ClosedLast(es))
      && (a.status == Acked <==> TakenLast(es) && !ClosedLast(es))
      && a.rootCause == CauseOf(rs)
      && forall k: nat :: LastChange(rs, k) ==> HighestFrom(rs, k, a.severity)
  {
    StatusAndCount(first, es);
    CauseAndSeverity(first, es);
  }

  /** What an action of the run does to an alert. */
  function EventOf(w: World, a: Action, id: Id): seq<Event> {
    match a
    case DoFold => if w.pc.Found? && w.pc.id == id then [Again(w.pc.r)] else []
    case DoReopen => if w.pc.Reopening? && w.pc.id == id then [Woken] else []
    case DoResolve => if w.pc.Resolving? && w.pc.id == id then [Closed(w.pc.now)] else []
    case Ack(i) => if i == id then [Taken] else []
    case ManualResolve(i, now) => if i == id then [Closed(now)] else []
    case _ => []
  }

  ghost function EventsOf(w: World, acts: seq<Action>, id: Id): seq<Event>
    requires Run(w, acts)
    decreases |acts|
  {
    if acts == [] then [] else EventOf(w, acts[0], id) + EventsOf(Next(w, acts[0]), acts[1..], id)
  }

  lemma {:induction false} FateConcat(a: Alert, es: seq<Event>, fs: seq<Event>)
    ensures Fate(a, es + fs) == Fate(Fate(a, es), fs)
  {
    if fs == [] {
      assert es + fs == es;
    } else {
      assert (es + fs)[..|es + fs| - 1] == es + fs[..|fs| - 1];
      FateConcat(a, es, fs[..|fs| - 1]);
    }
  }

  lemma {:induction false} OneEvent(w: World, a: Action, id: Id)
    requires Inv(w) && Enabled(w, a) && id in w.book && id in Next(w, a).book
    ensures Next(w, a).book[id] == Fate(w.book[id], EventOf(w, a, id))
  {
    var es := EventOf(w, a, id);
    if es != [] { assert es[..0] == []; }
  }

  /** An id that is gone stays gone. */
  lemma {:induction false} GoneForGood(w: World, acts: seq<Action>, id: Id)
    requires Inv(w) && Run(w, acts) && id in w.used && id !in w.book
    ensures id !in After(w, acts).book
    decreases |acts|
  {
    if acts != [] {
      Step(w, acts[0]);
      GoneForGood(Next(w, acts[0]), acts[1..], id);
    }
  }

  lemma {:induction false} AlertFollowsEvents(w: World, acts: seq<Action>, id: Id)
    requires Inv(w) && Run(w, acts) && id in w.book && id in After(w, acts).book
    ensures After(w, acts).book[id] == Fate(w.book[id], EventsOf(w, acts, id))
    decreases |acts|
  {
    if acts != [] {
      var w' := Next(w, acts[0]);
      Step(w, acts[0]);
      if id !in w'.book { GoneForGood(w', acts[1..], id); }
      OneEvent(w, acts[0], id);
      AlertFollowsEvents(w', acts[1..], id);
      FateConcat(w.book[id], EventOf(w, acts[0], id), EventsOf(w', acts[1..], id));
    }
  }

  /** In every interleaving an alert is what its request and its events make of it, from the step that creates
      it to any later one that still has it in the book. */
  lemma {:induction false} CreatedAlertIsHistory(before: seq<Action>, id: Id, after: seq<Action>)
    requires Run(EMPTY, before) && Enabled(After(EMPTY, before), DoCreate(id))
    requires Run(Next(After(EMPTY, before), DoCreate(id)), after)
    requires id in After(Next(After(EMPTY, before), DoCreate(id)), after).book
    ensures var w := After(EMPTY, before);
      var w' := Next(w, DoCreate(id));
      After(w', after).book[id] == Fate(Create(w.pc.r), EventsOf(w', after, id))
  {
    assert Balanced(EMPTY);
    RunInv(EMPTY, before);
    Step(After(EMPTY, before), DoCreate(id));
    AlertFollowsEvents(Next(After(EMPTY, before), DoCreate(id)), after, id);
  }
}
