// The Buzz notifier (src/services/buzz-notifier.ts): full-state re-polls in, one
// chat message per status change out, with the last seen status kept durably.
//
// Message wording is left out; a message carries the entry, the status it
// announces, and its place in a thread. Event ids are positions in the log of
// everything posted. A failed post and a crash between a post and its store
// write are outcomes of an observation.
module BuzzNotifier {
  import opened Prelude

  datatype Status = Pending | Deploying | Benchmarking | Completed | FailedStatus | Cancelled

  predicate IsTerminal(status: Status) {
    status == Completed || status == FailedStatus || status == Cancelled
  }

  datatype Entry = Entry(id: string, status: Status)

  /** `root` is None for an entry that was already finished when first seen. */
  datatype Row = Row(status: Status, root: Option<nat>)

  /** `thread` is None for a thread root. */
  datatype Message = Message(entryId: string, status: Status, thread: Option<nat>)

  /** A message in the log, and whether the store recorded its transition. */
  datatype Posted = Posted(message: Message, recorded: bool)

  datatype Bridge = Bridge(rows: map<string, Row>, posted: seq<Posted>)

  /** How an observation ends: it completes, the transport refuses the post, or the process dies before storing. */
  datatype Fate = Through | Refused | Died

  datatype Event = Event(entry: Entry, fate: Fate)

  /** The upsert: a root, once there, is kept. */
  function SetRow(rows: map<string, Row>, id: string, row: Row): map<string, Row> {
    rows[id := Row(row.status, if id in rows && rows[id].root.Some? then rows[id].root else row.root)]
  }

  /** The message an observation posts, if any. */
  function Announcement(rows: map<string, Row>, entry: Entry): Option<Message> {
    if entry.id !in rows then
      if IsTerminal(entry.status) then None else Some(Message(entry.id, entry.status, None))
    else if rows[entry.id].status == entry.status then None
    else Some(Message(entry.id, entry.status, rows[entry.id].root))
  }

  function Observe(b: Bridge, event: Event): Bridge {
    var entry := event.entry;
    match Announcement(b.rows, entry)
    case None =>
      if entry.id in b.rows || event.fate == Died then b
      else b.(rows := SetRow(b.rows, entry.id, Row(entry.status, None)))
    case Some(message) =>
      match event.fate
      case Refused => b
      case Died => b.(posted := b.posted + [Posted(message, false)])
      case Through =>
        var root := if message.thread.Some? then message.thread else Some(|b.posted|);
        Bridge(SetRow(b.rows, entry.id, Row(entry.status, root)), b.posted + [Posted(message, true)])
  }

  function ObserveAll(b: Bridge, events: seq<Event>): Bridge
    decreases |events|
  {
    if events == [] then b
    else Observe(ObserveAll(b, events[..|events| - 1]), events[|events| - 1])
  }

  // ---------------------------------------------------------------------
  // The classes
  // ---------------------------------------------------------------------

  class TransitionStore {
    var rows: map<string, Row>

    constructor ()
      ensures rows == map[]
    {
      rows := map[];
    }

    method Set(id: string, row: Row)
      modifies this
      ensures rows == SetRow(old(rows), id, row)
    {
      var kept := if id in rows && rows[id].root.Some? then rows[id].root else row.root;
      rows := rows[id := Row(row.status, kept)];
    }

    function NonTerminal(): (ids: set<string>)
      reads this
    {
      set id | id in rows && !IsTerminal(rows[id].status)
    }
  }

  /** What resolving one entry by id yields. */
  datatype Answer = Found(entry: Entry) | Absent | LookupFails

  datatype Snapshot = Snapshot(entries: seq<Entry>, current: Option<Entry>)

  /** `Map.set`: a repeated id keeps its place and takes the later value. */
  function Upsert(seen: seq<Entry>, entry: Entry): seq<Entry> {
    if seen == [] then [entry]
    else if seen[0].id == entry.id then [entry] + seen[1..]
    else [seen[0]] + Upsert(seen[1..], entry)
  }

  function UpsertAll(seen: seq<Entry>, entries: seq<Entry>): seq<Entry>
    decreases |entries|
  {
    if entries == [] then seen else UpsertAll(Upsert(seen, entries[0]), entries[1..])
  }

  /** The entries a snapshot shows, one per id. */
  function Shown(snapshot: Snapshot): seq<Entry> {
    var page := UpsertAll([], snapshot.entries);
    if snapshot.current.Some? then Upsert(page, snapshot.current.value) else page
  }

  ghost predicate DistinctIds(entries: seq<Entry>) {
    forall i, j :: 0 <= i < j < |entries| ==> entries[i].id != entries[j].id
  }

  lemma {:induction false} UpsertDistinct(seen: seq<Entry>, entry: Entry)
    requires DistinctIds(seen)
    ensures DistinctIds(Upsert(seen, entry))
    ensures forall e :: e in Upsert(seen, entry) <==> e == entry || (e in seen && e.id != entry.id)
  {
    if seen != [] {
      UpsertDistinct(seen[1..], entry);
      if seen[0].id != entry.id {
        var rest := Upsert(seen[1..], entry);
        forall j | 0 <= j < |rest|
          ensures rest[j].id != seen[0].id
        {
          assert rest[j] in rest;
        }
      }
    }
  }

  lemma {:induction false} UpsertAllDistinct(seen: seq<Entry>, entries: seq<Entry>)
    requires DistinctIds(seen)
    ensures DistinctIds(UpsertAll(seen, entries))
    decreases |entries|
  {
    if entries != [] {
      UpsertDistinct(seen, entries[0]);
      UpsertAllDistinct(Upsert(seen, entries[0]), entries[1..]);
    }
  }

  /** The last entry of the page with its id. */
  ghost predicate LastOfItsId(entries: seq<Entry>, e: Entry) {
    exists i :: 0 <= i < |entries| && entries[i] == e && forall j :: i < j < |entries| ==> entries[j].id != e.id
  }

  /** The running entry, or the last word of the page on any other id. */
  ghost predicate ShownBy(snapshot: Snapshot, e: Entry) {
    if snapshot.current.Some? && snapshot.current.value.id == e.id then e == snapshot.current.value
    else LastOfItsId(snapshot.entries, e)
  }

  lemma {:induction false} UpsertAllHolds(seen: seq<Entry>, entries: seq<Entry>, e: Entry)
    requires DistinctIds(seen)
    ensures e in UpsertAll(seen, entries) <==>
              LastOfItsId(entries, e) || (e in seen && forall i :: 0 <= i < |entries| ==> entries[i].id != e.id)
    decreases |entries|
  {
    if entries != [] {
      var first, rest := entries[0], entries[1..];
      UpsertDistinct(seen, first);
      UpsertAllHolds(Upsert(seen, first), rest, e);
      LastOfItsIdHead(entries, e);
    }
  }

  lemma {:induction false} LastOfItsIdHead(entries: seq<Entry>, e: Entry)
    requires entries != []
    ensures LastOfItsId(entries, e) <==>
              || LastOfItsId(entries[1..], e)
              || (entries[0] == e && forall i :: 0 <= i < |entries[1..]| ==> entries[1..][i].id != e.id)
  {
    var rest := entries[1..];
    if LastOfItsId(rest, e) {
      var i :| 0 <= i < |rest| && rest[i] == e && forall j :: i < j < |rest| ==> rest[j].id != e.id;
      assert entries[i + 1] == e;
      assert forall j :: i + 1 < j < |entries| ==> entries[j] == rest[j - 1];
    }
    if LastOfItsId(entries, e) {
      var i :| 0 <= i < |entries| && entries[i] == e && forall j :: i < j < |entries| ==> entries[j].id != e.id;
      assert forall j :: 0 <= j < |rest| ==> rest[j] == entries[j + 1];
      if i > 0 {
        assert rest[i - 1] == e;
      }
    }
  }

  /** Exactly the running entry and the page's last word on every other id are shown. */
  lemma {:induction false} ShownIs(snapshot: Snapshot, e: Entry)
    ensures e in Shown(snapshot) <==> ShownBy(snapshot, e)
  {
    UpsertAllDistinct([], snapshot.entries);
    UpsertAllHolds([], snapshot.entries, e);
    if snapshot.current.Some? {
      UpsertDistinct(UpsertAll([], snapshot.entries), snapshot.current.value);
    }
  }

  lemma {:induction false} ShownDistinct(snapshot: Snapshot)
    ensures DistinctIds(Shown(snapshot))
  {
    UpsertAllDistinct([], snapshot.entries);
    if snapshot.current.Some? {
      UpsertDistinct(UpsertAll([], snapshot.entries), snapshot.current.value);
    }
  }

  function AllThrough(entries: seq<Entry>): seq<Event> {
    seq(|entries|, i requires 0 <= i < |entries| => Event(entries[i], Through))
  }

  lemma {:induction false} AllThroughHas(entries: seq<Entry>, e: Entry)
    ensures Event(e, Through) in AllThrough(entries) <==> e in entries
  {
    if e in entries {
      var i :| 0 <= i < |entries| && entries[i] == e;
      assert AllThrough(entries)[i] == Event(e, Through);
    }
  }

  function Ids(entries: seq<Entry>): set<string> {
    set e | e in entries :: e.id
  }

  function Tracked(rows: map<string, Row>, shown: set<string>): set<string> {
    set id | id in rows && !IsTerminal(rows[id].status) && id !in shown
  }

  /** Everything tracked, apart from `todo`, was looked up, and what was found was observed once. */
  ghost predicate ResolvedAll(tracked: set<string>, todo: set<string>, resolve: string -> Answer,
                              resolved: seq<Event>) {
    && (forall i :: 0 <= i < |resolved| ==>
          && resolved[i].fate == Through
          && resolved[i].entry.id in tracked - todo
          && resolve(resolved[i].entry.id) == Found(resolved[i].entry))
    && (forall id :: id in tracked - todo && resolve(id).Found? ==> Event(resolve(id).entry, Through) in resolved)
    && (forall i, j :: 0 <= i < j < |resolved| ==> resolved[i].entry.id != resolved[j].entry.id)
  }

  lemma {:induction false} ResolvedOneMore(tracked: set<string>, todo: set<string>, id: string,
                                           resolve: string -> Answer, resolved: seq<Event>)
    requires id in tracked && id !in todo
    requires AnswersById(resolve) && resolve(id).Found?
    requires ResolvedAll(tracked, todo + {id}, resolve, resolved)
    ensures ResolvedAll(tracked, todo, resolve, resolved + [Event(resolve(id).entry, Through)])
  {
    var all := resolved + [Event(resolve(id).entry, Through)];
    forall other | other in tracked - todo && resolve(other).Found?
      ensures Event(resolve(other).entry, Through) in all
    {
      if other == id {
        assert all[|resolved|] == Event(resolve(id).entry, Through);
      } else {
        assert other in tracked - (todo + {id});
      }
    }
  }

  /**
   * An undisturbed round: what the snapshot shows, then what the resolver says of
   * every tracked entry that is still open and was not shown.
   */
  ghost predicate IsRound(b: Bridge, snapshot: Snapshot, resolve: string -> Answer, shown: seq<Event>,
                          resolved: seq<Event>) {
    && shown == AllThrough(Shown(snapshot))
    && ResolvedAll(Tracked(ObserveAll(b, shown).rows, Ids(Shown(snapshot))), {}, resolve, resolved)
  }

  /** What the resolver finds of the stored entries that are still open and not shown is observed, and nothing else. */
  ghost predicate EverybodyOpenResolved(rows: map<string, Row>, snapshot: Snapshot, resolve: string -> Answer,
                                        resolved: seq<Event>) {
    && (forall id :: id in rows && OpenAndNotShown(rows, snapshot, id) && resolve(id).Found? ==>
          Event(resolve(id).entry, Through) in resolved)
    && (forall i :: 0 <= i < |resolved| ==>
          && resolved[i].entry.id in rows && OpenAndNotShown(rows, snapshot, resolved[i].entry.id)
          && resolve(resolved[i].entry.id) == Found(resolved[i].entry))
  }

  ghost predicate OpenAndNotShown(rows: map<string, Row>, snapshot: Snapshot, id: string)
    requires id in rows
  {
    rows[id].status in {Pending, Deploying, Benchmarking} && forall e :: ShownBy(snapshot, e) ==> e.id != id
  }

  lemma {:induction false} ShownInPlainTerms(snapshot: Snapshot)
    ensures forall e :: Event(e, Through) in AllThrough(Shown(snapshot)) <==> ShownBy(snapshot, e)
  {
    forall e
      ensures Event(e, Through) in AllThrough(Shown(snapshot)) <==> ShownBy(snapshot, e)
    {
      ShownIs(snapshot, e);
      AllThroughHas(Shown(snapshot), e);
    }
  }

  lemma {:induction false} TrackedIs(rows: map<string, Row>, snapshot: Snapshot, id: string)
    ensures id in Tracked(rows, Ids(Shown(snapshot))) <==> id in rows && OpenAndNotShown(rows, snapshot, id)
  {
    forall e: Entry
      ensures e in Shown(snapshot) <==> ShownBy(snapshot, e)
    {
      ShownIs(snapshot, e);
    }
    if id in Ids(Shown(snapshot)) {
      var e :| e in Shown(snapshot) && e.id == id;
      assert ShownBy(snapshot, e);
    }
  }

  lemma {:induction false} ResolvedInPlainTerms(b: Bridge, snapshot: Snapshot, resolve: string -> Answer,
                                                shown: seq<Event>, resolved: seq<Event>)
    requires IsRound(b, snapshot, resolve, shown, resolved)
    ensures EverybodyOpenResolved(ObserveAll(b, shown).rows, snapshot, resolve, resolved)
  {
    var rows := ObserveAll(b, shown).rows;
    forall id
      ensures id in Tracked(rows, Ids(Shown(snapshot))) <==> id in rows && OpenAndNotShown(rows, snapshot, id)
    {
      TrackedIs(rows, snapshot, id);
    }
  }

  /** A resolver looks an entry up by its id. */
  ghost predicate AnswersById(resolve: string -> Answer) {
    forall id :: resolve(id).Found? ==> resolve(id).entry.id == id
  }

  class BuzzNotifier {
    const store: TransitionStore
    var posted: seq<Posted>

    constructor (store: TransitionStore)
      ensures this.store == store && posted == []
    {
      this.store := store;
      posted := [];
    }

    function View(): Bridge
      reads this, store
    {
      Bridge(store.rows, posted)
    }

    /** Returns false when the observation ends in an exception or a crash. */
    method ObserveEntry(entry: Entry, fate: Fate) returns (ok: bool)
      modifies this, store
      ensures View() == Observe(old(View()), Event(entry, fate))
      ensures fate == Through ==> ok
    {
      if entry.id !in store.rows {
        if IsTerminal(entry.status) {
          if fate == Died {
            return false;
          }
          store.Set(entry.id, Row(entry.status, None));
          return true;
        }
        var root := |posted|;
        ok := Post(Message(entry.id, entry.status, None), fate);
        if ok {
          store.Set(entry.id, Row(entry.status, Some(root)));
        }
        return;
      }
      var previous := store.rows[entry.id];
      if previous.status == entry.status {
        return true;
      }
      if previous.root.None? {
        var root := |posted|;
        ok := Post(Message(entry.id, entry.status, None), fate);
        if ok {
          store.Set(entry.id, Row(entry.status, Some(root)));
        }
        return;
      }
      ok := Post(Message(entry.id, entry.status, previous.root), fate);
      if ok {
        store.Set(entry.id, Row(entry.status, previous.root));
      }
    }

    method Post(message: Message, fate: Fate) returns (ok: bool)
      modifies this`posted
      ensures ok <==> fate == Through
      ensures posted == if fate == Refused then old(posted) else old(posted) + [Posted(message, fate == Through)]
    {
      if fate != Refused {
        posted := posted + [Posted(message, fate == Through)];
      }
      ok := fate == Through;
    }

    /** The first half of a round: every entry the snapshot shows. */
    method ObserveShown(observed: seq<Entry>)
      modifies this, store
      ensures View() == ObserveAll(old(View()), AllThrough(observed))
    {
      var i := 0;
      while i < |observed|
        invariant 0 <= i <= |observed|
        invariant View() == ObserveAll(old(View()), AllThrough(observed[..i]))
      {
        assert AllThrough(observed[..i + 1])[..i] == AllThrough(observed[..i]);
        var _ := ObserveEntry(observed[i], Through);
        i := i + 1;
      }
      assert observed[..|observed|] == observed;
    }

    /**
     * The second half: the tracked entries that are still open and were not shown.
     * A lookup that fails ends it, with the entries in `left` not observed - the one
     * looked up in vain among them - and all the others observed as usual.
     */
    method ResolveTracked(tracked: set<string>, resolve: string -> Answer)
      returns (ok: bool, ghost resolved: seq<Event>, ghost left: set<string>)
      requires AnswersById(resolve)
      modifies this, store
      ensures View() == ObserveAll(old(View()), resolved)
      ensures ok <==> forall id :: id in tracked ==> !resolve(id).LookupFails?
      ensures left <= tracked && ResolvedAll(tracked, left, resolve, resolved)
      ensures ok ==> left == {}
      ensures !ok ==> exists id :: id in left && resolve(id).LookupFails?
    {
      resolved := [];
      var todo := tracked;
      while todo != {}
        invariant View() == ObserveAll(old(View()), resolved)
        invariant todo <= tracked && ResolvedAll(tracked, todo, resolve, resolved)
        invariant forall id :: id in tracked - todo ==> !resolve(id).LookupFails?
        decreases todo
      {
        var id :| id in todo;
        left := todo;
        todo := todo - {id};
        match resolve(id) {
          case LookupFails => return false, resolved, left;
          case Absent =>
          case Found(entry) =>
            var _ := ObserveEntry(entry, Through);
            ResolvedOneMore(tracked, todo, id, resolve, resolved);
            assert (resolved + [Event(entry, Through)])[..|resolved|] == resolved;
            resolved := resolved + [Event(entry, Through)];
        }
      }
      ok, left := true, {};
    }

    /**
     * One undisturbed re-poll. Everything shown is observed, whatever the lookups
     * answer. `ok` is false exactly when a lookup fails, and then the tracked entries
     * in `left` are not observed, the one looked up in vain among them.
     */
    method ProcessSnapshot(snapshot: Snapshot, resolve: string -> Answer)
      returns (ok: bool, ghost shown: seq<Event>, ghost resolved: seq<Event>, ghost left: set<string>)
      requires AnswersById(resolve)
      modifies this, store
      ensures View() == ObserveAll(old(View()), shown + resolved)
      ensures shown == AllThrough(Shown(snapshot))
      ensures var tracked := Tracked(ObserveAll(old(View()), shown).rows, Ids(Shown(snapshot)));
              && (ok <==> forall id :: id in tracked ==> !resolve(id).LookupFails?)
              && left <= tracked && ResolvedAll(tracked, left, resolve, resolved)
      ensures !ok ==> exists id :: id in left && resolve(id).LookupFails?
      ensures ok ==> IsRound(old(View()), snapshot, resolve, shown, resolved)
      // In plain terms: shown are the running entry and the page's last word on every
      // other id; looked up, all stored entries that are still open and not shown.
      ensures forall e :: Event(e, Through) in shown <==> ShownBy(snapshot, e)
      ensures ok ==> EverybodyOpenResolved(ObserveAll(old(View()), shown).rows, snapshot, resolve, resolved)
    {
      var observed := ObservedEntries(snapshot);
      shown := AllThrough(observed);
      ObserveShown(observed);
      ghost var b := old(View());
      ok, resolved, left := ResolveTracked(Tracked(store.rows, Ids(observed)), resolve);
      ObserveAllAppend(b, shown, resolved);
      ShownInPlainTerms(snapshot);
      if ok {
        ResolvedInPlainTerms(b, snapshot, resolve, shown, resolved);
      }
    }

    /** The map of everything a snapshot shows: the page first, then the running entry. */
    method ObservedEntries(snapshot: Snapshot) returns (observed: seq<Entry>)
      ensures observed == Shown(snapshot)
    {
      observed := [];
      for i := 0 to |snapshot.entries|
        invariant UpsertAll(observed, snapshot.entries[i..]) == UpsertAll([], snapshot.entries)
      {
        assert snapshot.entries[i..][1..] == snapshot.entries[i + 1..];
        observed := Upsert(observed, snapshot.entries[i]);
      }
      if snapshot.current.Some? {
        observed := Upsert(observed, snapshot.current.value);
      }
    }
  }

  // ---------------------------------------------------------------------
  // What is posted about one entry
  // ---------------------------------------------------------------------

  /** Consecutive repeats removed. */
  function Dedup(statuses: seq<Status>): seq<Status>
    decreases |statuses|
  {
    if |statuses| <= 1 then statuses
    else
      var front, last := statuses[..|statuses| - 1], statuses[|statuses| - 1];
      if statuses[|statuses| - 2] == last then Dedup(front) else Dedup(front) + [last]
  }

  /** The statuses worth announcing: every change, except a first sight that is already the end. */
  function Narration(statuses: seq<Status>): seq<Status>
    decreases |statuses|
  {
    var changes := Dedup(statuses);
    if changes != [] && IsTerminal(changes[0]) then changes[1..] else changes
  }

  lemma {:induction false} DedupEnds(statuses: seq<Status>)
    requires statuses != []
    ensures Dedup(statuses) != []
    ensures Dedup(statuses)[0] == statuses[0]
    ensures Dedup(statuses)[|Dedup(statuses)| - 1] == statuses[|statuses| - 1]
    ensures forall i :: 0 <= i < |Dedup(statuses)| - 1 ==> Dedup(statuses)[i] != Dedup(statuses)[i + 1]
    decreases |statuses|
  {
    if |statuses| > 1 {
      DedupEnds(statuses[..|statuses| - 1]);
    }
  }

  /** The statuses of an entry that the store took in, in order. */
  function Committed(events: seq<Event>, id: string): seq<Status>
    decreases |events|
  {
    if events == [] then []
    else
      var before, event := Committed(events[..|events| - 1], id), events[|events| - 1];
      if event.entry.id == id && Commits(before, event) then before + [event.entry.status] else before
  }

  predicate Announces(before: seq<Status>, status: Status) {
    if before == [] then !IsTerminal(status) else before[|before| - 1] != status
  }

  /** An observation is lost when the process dies, or when it had something to post and the post was refused. */
  predicate Commits(before: seq<Status>, event: Event) {
    event.fate == Through || (event.fate == Refused && !Announces(before, event.entry.status))
  }

  /** How often the process died between a post about the entry and its store write. */
  function Deaths(events: seq<Event>, id: string): nat
    decreases |events|
  {
    if events == [] then 0
    else
      var front, event := events[..|events| - 1], events[|events| - 1];
      Deaths(front, id)
      + if event.entry.id == id && event.fate == Died && Announces(Committed(front, id), event.entry.status)
        then 1 else 0
  }

  /** The positions in the log of the recorded messages about an entry. */
  function RecordedAt(posted: seq<Posted>, id: string): seq<nat>
    decreases |posted|
  {
    if posted == [] then []
    else
      var front, last := posted[..|posted| - 1], posted[|posted| - 1];
      RecordedAt(front, id) + if last.recorded && last.message.entryId == id then [|front|] else []
  }

  function CountAbout(posted: seq<Posted>, id: string): nat
    decreases |posted|
  {
    if posted == [] then 0
    else CountAbout(posted[..|posted| - 1], id) + if posted[|posted| - 1].message.entryId == id then 1 else 0
  }

  lemma {:induction false} RecordedInRange(posted: seq<Posted>, id: string)
    ensures forall i :: 0 <= i < |RecordedAt(posted, id)| ==> RecordedAt(posted, id)[i] < |posted|
    decreases |posted|
  {
    if posted != [] {
      RecordedInRange(posted[..|posted| - 1], id);
    }
  }

  /** The recorded messages about an entry announce `statuses`, as one root and replies to it. */
  ghost predicate OneThread(posted: seq<Posted>, at: seq<nat>, statuses: seq<Status>) {
    && |at| == |statuses|
    && (forall i :: 0 <= i < |at| ==> at[i] < |posted| && posted[at[i]].message.status == statuses[i])
    && (forall i :: 0 <= i < |at| ==> posted[at[i]].message.thread == if i == 0 then None else Some(at[0]))
  }

  /** The durable row of an entry, given what the store took in and where its messages stand. */
  ghost predicate RowTells(rows: map<string, Row>, id: string, committed: seq<Status>, at: seq<nat>) {
    if committed == [] then id !in rows
    else id in rows && rows[id] == Row(committed[|committed| - 1], if at == [] then None else Some(at[0]))
  }

  /** What the log and the store say about an entry, given what the store took in and the deaths along the way. */
  ghost predicate TellsOf(b: Bridge, id: string, committed: seq<Status>, at: seq<nat>, about: nat, deaths: nat) {
    && OneThread(b.posted, at, Narration(committed))
    && RowTells(b.rows, id, committed, at)
    && about == |Narration(committed)| + deaths
  }

  ghost predicate Told(b: Bridge, events: seq<Event>, id: string) {
    TellsOf(b, id, Committed(events, id), RecordedAt(b.posted, id), CountAbout(b.posted, id), Deaths(events, id))
  }

  const NOBODY := Bridge(map[], [])

  lemma {:induction false} NarrationStep(before: seq<Status>, status: Status)
    ensures Narration(before + [status]) ==
            if Announces(before, status) then Narration(before) + [status] else Narration(before)
    ensures before != [] && Narration(before) == [] ==> IsTerminal(before[|before| - 1])
  {
    var all := before + [status];
    assert all[..|all| - 1] == before;
    if before != [] {
      DedupEnds(before);
      assert all[|all| - 2] == before[|before| - 1];
      if Announces(before, status) {
        assert Dedup(all) == Dedup(before) + [status];
        if IsTerminal(Dedup(before)[0]) {
          assert (Dedup(before) + [status])[1..] == Dedup(before)[1..] + [status];
        }
      }
    }
  }

  lemma {:induction false} ToldAlways(events: seq<Event>, id: string)
    ensures Told(ObserveAll(NOBODY, events), events, id)
    decreases |events|
  {
    if events == [] {
      assert Committed(events, id) == [] && Narration([]) == [];
    } else {
      var front, event := events[..|events| - 1], events[|events| - 1];
      ToldAlways(front, id);
      var b := ObserveAll(NOBODY, front);
      ToldStep(b, front, event, id);
      assert front + [event] == events;
    }
  }

  /** One more message in the log. */
  lemma {:induction false} LogStep(posted: seq<Posted>, p: Posted, id: string)
    ensures RecordedAt(posted + [p], id) ==
            if p.recorded && p.message.entryId == id
            then RecordedAt(posted, id) + [|posted|] else RecordedAt(posted, id)
    ensures CountAbout(posted + [p], id) == CountAbout(posted, id) + if p.message.entryId == id then 1 else 0
    ensures forall i :: 0 <= i < |posted| ==> (posted + [p])[i] == posted[i]
  {
    assert (posted + [p])[..|posted + [p]| - 1] == posted;
  }

  lemma {:induction false} ThreadKept(posted: seq<Posted>, p: Posted, at: seq<nat>, statuses: seq<Status>)
    requires OneThread(posted, at, statuses)
    ensures OneThread(posted + [p], at, statuses)
  {
  }

  lemma {:induction false} ThreadGrows(posted: seq<Posted>, p: Posted, at: seq<nat>, statuses: seq<Status>)
    requires OneThread(posted, at, statuses)
    requires p.message.thread == if at == [] then None else Some(at[0])
    ensures OneThread(posted + [p], at + [|posted|], statuses + [p.message.status])
  {
    var log, at' := posted + [p], at + [|posted|];
    forall i | 0 <= i < |at'|
      ensures log[at'[i]].message.thread == if i == 0 then None else Some(at'[0])
    {
      if i < |at| {
        assert at'[i] == at[i] && log[at[i]] == posted[at[i]];
      }
    }
  }

  lemma {:induction false} EventStep(front: seq<Event>, event: Event, id: string)
    ensures var before := Committed(front, id);
            && Committed(front + [event], id) ==
              (if event.entry.id == id && Commits(before, event) then before + [event.entry.status] else before)
            && Deaths(front + [event], id) == Deaths(front, id)
               + if event.entry.id == id && event.fate == Died && Announces(before, event.entry.status) then 1 else 0
  {
    assert (front + [event])[..|front + [event]| - 1] == front;
  }

  /** An observation leaves the other entries' rows alone, and at most adds one message to the log. */
  lemma {:induction false} OthersKept(b: Bridge, event: Event, id: string)
    requires event.entry.id != id
    ensures id in Observe(b, event).rows <==> id in b.rows
    ensures id in b.rows ==> Observe(b, event).rows[id] == b.rows[id]
    ensures Observe(b, event).posted ==
              match Announcement(b.rows, event.entry)
              case None => b.posted
              case Some(message) =>
                if event.fate == Refused then b.posted else b.posted + [Posted(message, event.fate == Through)]
  {
  }

  lemma {:induction false} ObserveAnother(b: Bridge, event: Event, id: string, committed: seq<Status>, at: seq<nat>,
                                          about: nat, deaths: nat)
    requires TellsOf(b, id, committed, at, about, deaths) && event.entry.id != id
    ensures TellsOf(Observe(b, event), id, committed, at, about, deaths)
  {
    OthersKept(b, event, id);
    var announced := Announcement(b.rows, event.entry);
    if announced.Some? && event.fate != Refused {
      ThreadKept(b.posted, Posted(announced.value, event.fate == Through), at, Narration(committed));
    }
  }

  lemma {:induction false} ObserveThis(b: Bridge, event: Event, id: string, committed: seq<Status>, at: seq<nat>,
                                       about: nat, deaths: nat)
    requires TellsOf(b, id, committed, at, about, deaths) && event.entry.id == id
    ensures Announcement(b.rows, event.entry).Some? <==> Announces(committed, event.entry.status)
    ensures var status, loud := event.entry.status, Announces(committed, event.entry.status);
            TellsOf(Observe(b, event), id,
                    if Commits(committed, event) then committed + [status] else committed,
                    if loud && event.fate == Through then at + [|b.posted|] else at,
                    if loud && event.fate != Refused then about + 1 else about,
                    if loud && event.fate == Died then deaths + 1 else deaths)
  {
    var status := event.entry.status;
    NarrationStep(committed, status);
    var announced := Announcement(b.rows, event.entry);
    if announced.Some? && event.fate != Refused {
      var p := Posted(announced.value, event.fate == Through);
      if event.fate == Through {
        ThreadGrows(b.posted, p, at, Narration(committed));
      } else {
        ThreadKept(b.posted, p, at, Narration(committed));
      }
    }
  }

  /** How one observation moves the four histories of an entry. */
  lemma {:induction false} HistoriesStep(b: Bridge, front: seq<Event>, event: Event, id: string)
    requires event.entry.id == id ==>
               (Announcement(b.rows, event.entry).Some? <==> Announces(Committed(front, id), event.entry.status))
    ensures var committed, mine := Committed(front, id), event.entry.id == id;
            var events, loud := front + [event], mine && Announces(committed, event.entry.status);
            && Committed(events, id) ==
              (if mine && Commits(committed, event) then committed + [event.entry.status] else committed)
            && RecordedAt(Observe(b, event).posted, id) ==
              (if loud && event.fate == Through
               then RecordedAt(b.posted, id) + [|b.posted|] else RecordedAt(b.posted, id))
            && CountAbout(Observe(b, event).posted, id) ==
              (if loud && event.fate != Refused then CountAbout(b.posted, id) + 1 else CountAbout(b.posted, id))
            && Deaths(events, id) == (if loud && event.fate == Died then Deaths(front, id) + 1 else Deaths(front, id))
  {
    EventStep(front, event, id);
    var announced := Announcement(b.rows, event.entry);
    if announced.Some? {
      LogStep(b.posted, Posted(announced.value, event.fate == Through), id);
    }
  }

  lemma {:induction false} ToldStep(b: Bridge, front: seq<Event>, event: Event, id: string)
    requires Told(b, front, id)
    ensures Told(Observe(b, event), front + [event], id)
  {
    var committed, at := Committed(front, id), RecordedAt(b.posted, id);
    var about, deaths := CountAbout(b.posted, id), Deaths(front, id);
    if event.entry.id == id {
      ObserveThis(b, event, id, committed, at, about, deaths);
    } else {
      ObserveAnother(b, event, id, committed, at, about, deaths);
    }
    HistoriesStep(b, front, event, id);
  }

  /**
   * For any stream of observations of any entries, with any failed posts and any
   * crashes: the recorded messages about an entry announce exactly the statuses
   * the store took in, consecutive repeats removed and without a first one that
   * is already terminal - the first as a thread root, all others as replies to
   * it. Every message beyond those is one left behind by a crash.
   */
  lemma {:induction false} OneMessagePerChange(events: seq<Event>, id: string)
    ensures var b := ObserveAll(NOBODY, events);
            && OneThread(b.posted, RecordedAt(b.posted, id), Narration(Committed(events, id)))
            && CountAbout(b.posted, id) == |Narration(Committed(events, id))| + Deaths(events, id)
  {
    ToldAlways(events, id);
  }

  function StatusesSeen(events: seq<Event>, id: string): seq<Status>
    decreases |events|
  {
    if events == [] then []
    else
      var last := events[|events| - 1].entry;
      StatusesSeen(events[..|events| - 1], id) + if last.id == id then [last.status] else []
  }

  /** When nothing fails, every observation is taken in and no message is left over. */
  lemma {:induction false} NothingLost(events: seq<Event>, id: string)
    requires forall i :: 0 <= i < |events| ==> events[i].fate == Through
    ensures Committed(events, id) == StatusesSeen(events, id)
    ensures Deaths(events, id) == 0
    decreases |events|
  {
    if events != [] {
      NothingLost(events[..|events| - 1], id);
    }
  }

  /** The undisturbed case in one line: the messages are the observed changes, nothing more and nothing less. */
  lemma {:induction false} UndisturbedThread(events: seq<Event>, id: string)
    requires forall i :: 0 <= i < |events| ==> events[i].fate == Through
    ensures var b := ObserveAll(NOBODY, events);
            && OneThread(b.posted, RecordedAt(b.posted, id), Narration(StatusesSeen(events, id)))
            && CountAbout(b.posted, id) == |Narration(StatusesSeen(events, id))|
  {
    NothingLost(events, id);
    ToldAlways(events, id);
  }

  /** An entry never seen before opens a thread iff it is still open; a finished one is only remembered. */
  lemma {:induction false} FirstSight(b: Bridge, entry: Entry)
    requires entry.id !in b.rows
    ensures var after := Observe(b, Event(entry, Through));
            && after.rows.Keys == b.rows.Keys + {entry.id} && after.rows[entry.id].status == entry.status
            && (entry.status in {Completed, FailedStatus, Cancelled} ==>
                  after.posted == b.posted && after.rows[entry.id].root == None)
            && (entry.status in {Pending, Deploying, Benchmarking} ==>
                  && after.posted == b.posted + [Posted(Message(entry.id, entry.status, None), true)]
                  && after.rows[entry.id].root == Some(|b.posted|))
  {
  }

  /** A root, once stored, never changes, whatever is observed and however it ends. */
  lemma {:induction false} RootsAreForever(b: Bridge, events: seq<Event>, id: string)
    requires id in b.rows && b.rows[id].root.Some?
    ensures id in ObserveAll(b, events).rows
    ensures ObserveAll(b, events).rows[id].root == b.rows[id].root
    decreases |events|
  {
    if events != [] {
      RootsAreForever(b, events[..|events| - 1], id);
    }
  }

  /** In every reachable state, a tracked entry that is not finished has a thread to close. */
  lemma {:induction false} OpenEntriesHaveRoots(events: seq<Event>, id: string)
    ensures var rows := ObserveAll(NOBODY, events).rows;
            id in rows && !IsTerminal(rows[id].status) ==> rows[id].root.Some?
  {
    ToldAlways(events, id);
    var committed := Committed(events, id);
    if committed != [] && Narration(committed) == [] {
      NarrationStep(committed, Pending);
    }
  }

  // ---------------------------------------------------------------------
  // Replay
  // ---------------------------------------------------------------------

  lemma {:induction false} ObserveAllAppend(b: Bridge, first: seq<Event>, then_: seq<Event>)
    ensures ObserveAll(b, first + then_) == ObserveAll(ObserveAll(b, first), then_)
    decreases |then_|
  {
    if then_ == [] {
      assert first + then_ == first;
    } else {
      var all := first + then_;
      assert all[..|all| - 1] == first + then_[..|then_| - 1];
      ObserveAllAppend(b, first, then_[..|then_| - 1]);
    }
  }

  ghost predicate Settled(b: Bridge, entry: Entry) {
    entry.id in b.rows && b.rows[entry.id].status == entry.status
  }

  ghost predicate DistinctEvents(events: seq<Event>) {
    && (forall i :: 0 <= i < |events| ==> events[i].fate == Through)
    && (forall i, j :: 0 <= i < j < |events| ==> events[i].entry.id != events[j].entry.id)
  }

  lemma {:induction false} ObserveIsLocal(b: Bridge, event: Event)
    requires event.fate == Through
    ensures Settled(Observe(b, event), event.entry)
    ensures SameRows(b, Observe(b, event), {event.entry.id})
  {
  }

  /** The rows of all entries but `except` are the same. */
  ghost predicate SameRows(b: Bridge, b': Bridge, except: set<string>) {
    forall id :: id !in except ==>
      && (id in b'.rows <==> id in b.rows)
      && (id in b.rows ==> b'.rows[id] == b.rows[id])
  }

  function EventIds(events: seq<Event>): set<string> {
    set e | e in events :: e.entry.id
  }

  lemma {:induction false} EventIdsAppend(front: seq<Event>, last: Event)
    ensures EventIds(front + [last]) == EventIds(front) + {last.entry.id}
  {
    assert forall e :: e in front + [last] <==> e in front || e == last;
  }

  ghost predicate AllSettled(b: Bridge, events: seq<Event>) {
    forall i :: 0 <= i < |events| ==> Settled(b, events[i].entry)
  }

  lemma {:induction false} StaySettled(b: Bridge, front: seq<Event>, last: Event)
    requires AllSettled(b, front) && last.fate == Through
    requires forall i :: 0 <= i < |front| ==> front[i].entry.id != last.entry.id
    ensures AllSettled(Observe(b, last), front + [last])
  {
    ObserveIsLocal(b, last);
    forall i | 0 <= i < |front|
      ensures Settled(Observe(b, last), front[i].entry)
    {
      assert Settled(b, front[i].entry);
    }
  }

  lemma {:induction false} DistinctEventsSettle(b: Bridge, events: seq<Event>)
    requires DistinctEvents(events)
    ensures AllSettled(ObserveAll(b, events), events)
    ensures SameRows(b, ObserveAll(b, events), EventIds(events))
    decreases |events|
  {
    if events != [] {
      var front, last := events[..|events| - 1], events[|events| - 1];
      var mid := ObserveAll(b, front);
      DistinctEventsSettle(b, front);
      ObserveIsLocal(mid, last);
      StaySettled(mid, front, last);
      EventIdsAppend(front, last);
      assert events == front + [last];
    }
  }

  lemma {:induction false} SettledEventsDoNothing(b: Bridge, events: seq<Event>)
    requires AllSettled(b, events)
    ensures ObserveAll(b, events) == b
    decreases |events|
  {
    if events != [] {
      SettledEventsDoNothing(b, events[..|events| - 1]);
    }
  }

  lemma {:induction false} RoundIsDistinct(b: Bridge, snapshot: Snapshot, resolve: string -> Answer,
                                           shown: seq<Event>, resolved: seq<Event>)
    requires IsRound(b, snapshot, resolve, shown, resolved)
    ensures DistinctEvents(shown) && DistinctEvents(shown + resolved)
  {
    ShownDistinct(snapshot);
    var entries := Shown(snapshot);
    forall i, j | 0 <= i < |shown| && 0 <= j < |resolved|
      ensures shown[i].entry.id != resolved[j].entry.id
    {
      assert entries[i] in entries;
      assert entries[i].id in Ids(entries);
    }
  }

  /**
   * Replaying a snapshot posts nothing and stores nothing: two undisturbed rounds
   * over the same snapshot, with a resolver that answers the same, leave exactly
   * what one round leaves - also when the first round was itself cut into by
   * arbitrary history.
   */
  lemma {:induction false} ReplayPostsNothing(b: Bridge, snapshot: Snapshot, resolve: string -> Answer,
                           shown: seq<Event>, resolved: seq<Event>, shown': seq<Event>, resolved': seq<Event>)
    requires IsRound(b, snapshot, resolve, shown, resolved)
    requires IsRound(ObserveAll(b, shown + resolved), snapshot, resolve, shown', resolved')
    ensures ObserveAll(ObserveAll(b, shown + resolved), shown' + resolved') == ObserveAll(b, shown + resolved)
  {
    var once := ObserveAll(b, shown + resolved);
    RoundIsDistinct(b, snapshot, resolve, shown, resolved);
    DistinctEventsSettle(b, shown + resolved);
    forall i | 0 <= i < |shown|
      ensures Settled(once, shown[i].entry)
    {
      assert (shown + resolved)[i] == shown[i];
    }
    SettledEventsDoNothing(once, shown');
    forall i | 0 <= i < |resolved'|
      ensures Settled(once, resolved'[i].entry)
    {
      TrackedBefore(b, snapshot, resolve, shown, resolved, resolved'[i].entry);
    }
    SettledEventsDoNothing(once, resolved');
    ObserveAllAppend(once, shown', resolved');
  }

  /** What the second round resolves, the first one resolved already. */
  lemma {:induction false} TrackedBefore(b: Bridge, snapshot: Snapshot, resolve: string -> Answer, shown: seq<Event>,
                                         resolved: seq<Event>, entry: Entry)
    requires IsRound(b, snapshot, resolve, shown, resolved)
    requires entry.id in Tracked(ObserveAll(b, shown + resolved).rows, Ids(Shown(snapshot)))
    requires resolve(entry.id) == Found(entry)
    ensures Settled(ObserveAll(b, shown + resolved), entry)
  {
    var once, mid := ObserveAll(b, shown + resolved), ObserveAll(b, shown);
    RoundIsDistinct(b, snapshot, resolve, shown, resolved);
    ObserveAllAppend(b, shown, resolved);
    DistinctEventsSettle(mid, resolved);
    assert entry.id in Tracked(mid.rows, Ids(Shown(snapshot))) by {
      if entry.id !in EventIds(resolved) {
        assert once.rows[entry.id] == mid.rows[entry.id];
      }
    }
  }
}
