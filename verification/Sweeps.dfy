/**
 The cursor-paginated sweeps: subscription expiry and renewal reminders, each over the job seekers' and over the
 companies' subscriptions. The four loops of the two jobs differ only in the filter and in what they do to a row.
 findMany with a cursor means: the matching rows whose id is not below the cursor, without the first of them.
 */
module Sweeps {
  import opened Wrappers
  import opened Subscriptions

  /** Row ids; only their order matters. */
  type Id = int

  const BATCH_SIZE: nat := 50
  const MAX_PAGES: nat := 10_001

  /** A subscription row and its owner: a user or a company. */
  datatype Row = Row(id: Id, owner: string, sub: Subscription)

  datatype Job = Expiry(now: int) | Reminder(windowStart: int, windowEnd: int, now: int)

  predicate Matches(job: Job, sub: Subscription) {
    match job
    case Expiry(now) => Due(sub, now)
    case Reminder(from, to, _) =>
      sub.status == ACTIVE && sub.endDate.Some? && from <= sub.endDate.value <= to && sub.reminderSentAt.None?
  }

  function Process(job: Job, sub: Subscription): Subscription {
    match job
    case Expiry(_) => sub.(status := EXPIRED)
    case Reminder(_, _, now) => sub.(reminderSentAt := Some(now))
  }

  /** The table in id order. */
  ghost predicate Increasing(rows: seq<Row>) {
    rows == [] || (Increasing(rows[1..]) && forall r :: r in rows[1..] ==> rows[0].id < r.id)
  }

  /** The matching rows, in id order. */
  function Select(rows: seq<Row>, job: Job): seq<Row> {
    if rows == [] then []
    else if Matches(job, rows[0].sub) then [rows[0]] + Select(rows[1..], job)
    else Select(rows[1..], job)
  }

  /** The rows from a cursor on. */
  function From(rows: seq<Row>, cursor: Id): seq<Row> {
    if rows == [] then []
    else if cursor <= rows[0].id then [rows[0]] + From(rows[1..], cursor)
    else From(rows[1..], cursor)
  }

  function Take(s: seq<Row>, n: nat): seq<Row> { if |s| <= n then s else s[..n] }

  function SkipOne(s: seq<Row>): seq<Row> { if s == [] then [] else s[1..] }

  function FindMany(rows: seq<Row>, job: Job, cursor: Option<Id>): seq<Row> {
    Take(if cursor.Some? then SkipOne(From(Select(rows, job), cursor.value)) else Select(rows, job), BATCH_SIZE)
  }

  function Update(r: Row, job: Job, ids: set<Id>): Row {
    if r.id in ids then r.(sub := Process(job, r.sub)) else r
  }

  /** The table after the rows with the given ids were updated. */
  function UpdateAll(rows: seq<Row>, job: Job, ids: set<Id>): seq<Row> {
    if rows == [] then [] else [Update(rows[0], job, ids)] + UpdateAll(rows[1..], job, ids)
  }

  /** The ids of the rows whose update does not throw. */
  function Done(page: seq<Row>, ok: set<Id>): set<Id> { set r | r in page && r.id in ok :: r.id }

  /** The users behind a row: the job seeker, or the employees of the company. */
  function Beneficiaries(r: Row, members: map<string, set<string>>): set<string> {
    if r.owner in members then members[r.owner] else {}
  }

  /** The users a page takes isPremium from: those behind the expired rows. */
  function Downgraded(job: Job, page: seq<Row>, ok: set<Id>, members: map<string, set<string>>): set<string> {
    if page == [] || !job.Expiry? then {}
    else
      var front, last := page[..|page| - 1], page[|page| - 1];
      Downgraded(job, front, ok, members) + if last.id in ok then Beneficiaries(last, members) else {}
  }

  /** What a visit does to a row, column by column; only rows of these columns are treated. */
  predicate Treated(job: Job, was: Row, now: Row) {
    && now.id == was.id && now.owner == was.owner
    && was.sub.status == ACTIVE && was.sub.endDate.Some?
    && match job
       case Expiry(instant) => was.sub.endDate.value < instant && now.sub == was.sub.(status := EXPIRED)
       case Reminder(from, to, instant) =>
         && from <= was.sub.endDate.value <= to && was.sub.reminderSentAt == None
         && now.sub == was.sub.(reminderSentAt := Some(instant))
  }

  /** Exactly the chosen rows whose update did not throw are treated; all others are as they were. */
  ghost predicate TreatsJust(job: Job, ok: set<Id>, chosen: seq<Row>, was: seq<Row>, now: seq<Row>) {
    && |now| == |was|
    && forall i :: 0 <= i < |was| ==>
         if was[i] in chosen && was[i].id in ok then Treated(job, was[i], now[i]) else now[i] == was[i]
  }

  /** An expiry takes the flag from the users behind the chosen rows that were updated, a reminder from nobody. */
  ghost predicate DowngradesJust(job: Job, ok: set<Id>, chosen: seq<Row>, members: map<string, set<string>>,
                                 was: set<string>, now: set<string>) {
    forall u :: u in now <==> u in was && !(job.Expiry? && BehindOne(u, ok, chosen, members))
  }

  predicate BehindOne(u: string, ok: set<Id>, chosen: seq<Row>, members: map<string, set<string>>) {
    exists r :: r in chosen && r.id in ok && r.owner in members && u in members[r.owner]
  }

  class SubscriptionTable {
    var rows: seq<Row>
    /** The users whose isPremium is set. */
    var premium: set<string>
    const members: map<string, set<string>>

    constructor (rows: seq<Row>, premium: set<string>, members: map<string, set<string>>)
      ensures this.rows == rows && this.premium == premium && this.members == members
    {
      this.rows, this.premium, this.members := rows, premium, members;
    }

    /** The transaction for one record: the row, and for an expiry its beneficiaries' isPremium. */
    method SweepRecord(job: Job, r: Row)
      modifies this
      ensures rows == UpdateAll(old(rows), job, {r.id})
      ensures premium == old(premium) - if job.Expiry? then Beneficiaries(r, members) else {}
      ensures |rows| == |old(rows)|
      ensures forall i :: 0 <= i < |rows| ==>
        var was := old(rows)[i];
        rows[i] == if was.id != r.id then was
                   else if job.Expiry? then was.(sub := was.sub.(status := EXPIRED))
                   else was.(sub := was.sub.(reminderSentAt := Some(job.now)))
    {
      UpdateAllAt(rows, job, {r.id});
      rows := UpdateAll(rows, job, {r.id});
      if job.Expiry? && r.owner in members {
        premium := premium - members[r.owner];
      }
    }

    /** One page; ok are the rows whose update (and mail) does not throw. */
    method SweepPage(job: Job, cursor: Option<Id>, ok: set<Id>) returns (processed: nat, next: Option<Id>)
      requires Increasing(rows)
      modifies this
      ensures var page := FindMany(old(rows), job, cursor);
        && rows == UpdateAll(old(rows), job, Done(page, ok))
        && premium == old(premium) - Downgraded(job, page, ok, members)
        && processed == |Done(page, ok)|
        && next == (if |page| == BATCH_SIZE then Some(page[BATCH_SIZE - 1].id) else None)
        && TreatsJust(job, ok, page, old(rows), rows)
        && DowngradesJust(job, ok, page, members, old(premium), premium)
    {
      var records := FindMany(rows, job, cursor);
      PageIncreasing(rows, job, cursor);
      processed := 0;
      ghost var was := Progress(rows, premium, 0, None, 0);
      HasDoneNothing(was, job, ok, members, records);
      hide FindMany, UpdateAll, Increasing, HasDone, Beneficiaries, TreatsJust, DowngradesJust, Select, Downgraded,
           Process;
      for i := 0 to |records|
        invariant HasDone(was, job, ok, members, Progress(rows, premium, processed, None, 0), records[..i])
      {
        RecordStep(was, job, ok, members, Progress(rows, premium, processed, None, 0), records, i);
        if records[i].id in ok {
          SweepRecord(job, records[i]);
          processed := processed + 1;
        }
      }
      assert records[..|records|] == records;
      HasDoneMeans(was, job, ok, members, Progress(rows, premium, processed, None, 0), records);
      PageIsSelected(was.rows, job, cursor);
      TreatsChosen(was.rows, job, records, ok);
      DowngradesChosen(was.premium, job, records, ok, members);
      next := if |records| == BATCH_SIZE then Some(records[|records| - 1].id) else None;
    }

    /** The paging loop of a job over one table. */
    method RunSweep(job: Job, ok: set<Id>) returns (total: nat)
      requires Increasing(rows)
      modifies this
      ensures var visited := Visited(Select(old(rows), job), ok, false, MAX_PAGES);
        && rows == UpdateAll(old(rows), job, Done(visited, ok))
        && premium == old(premium) - Downgraded(job, visited, ok, members)
        && total == |Done(visited, ok)|
        && TreatsJust(job, ok, visited, old(rows), rows)
        && DowngradesJust(job, ok, visited, members, old(premium), premium)
    {
      total := 0;
      var cursor: Option<Id> := None;
      var page := 0;
      var more := true;
      ghost var was := Progress(rows, premium, 0, None, 0);
      ghost var k: nat := 0;
      ghost var done: seq<Row> := [];
      ProgressStart(was, job, ok, members);
      hide FindMany, UpdateAll, Increasing, Done, Downgraded, Select, Visited, PageAt, NextIndex, InProgress,
        Finished, AfterPage, TreatsJust, DowngradesJust;
      while more
        invariant page <= MAX_PAGES && (more ==> page < MAX_PAGES)
        invariant Increasing(rows) && k <= |Select(was.rows, job)|
        invariant more ==> InProgress(was, job, ok, members, Progress(rows, premium, total, cursor, page), k, done)
        invariant !more ==> Finished(was, job, ok, members, Progress(rows, premium, total, cursor, page))
        decreases more, MAX_PAGES - page
      {
        ghost var s := Progress(rows, premium, total, cursor, page);
        page := page + 1;
        var processed, nextCursor := SweepPage(job, cursor, ok);
        total := total + processed;
        cursor := nextCursor;
        AfterPageIs(job, ok, members, s, Progress(rows, premium, total, cursor, page));
        more := cursor.Some? && !(page > 10_000);
        ProgressStep(was, job, ok, members, s, k, done);
        k, done := NextIndex(Select(was.rows, job), k, ok), done + PageAt(Select(was.rows, job), k, ok);
      }
      assert Finished(was, job, ok, members, Progress(rows, premium, total, cursor, page));
      FinishedMeans(was, job, ok, members, Progress(rows, premium, total, cursor, page));
      ghost var visited := Visited(Select(was.rows, job), ok, false, MAX_PAGES);
      forall r | r in visited ensures r in Select(was.rows, job) {
        VisitedIsDue(Select(was.rows, job), ok, false, MAX_PAGES, r);
      }
      TreatsChosen(was.rows, job, visited, ok);
      DowngradesChosen(was.premium, job, visited, ok, members);
    }
  }

  lemma {:induction false} UpdateAllAt(rows: seq<Row>, job: Job, ids: set<Id>)
    ensures |UpdateAll(rows, job, ids)| == |rows|
    ensures forall i :: 0 <= i < |rows| ==> UpdateAll(rows, job, ids)[i] == Update(rows[i], job, ids)
  {
    hide Update;
    if rows != [] {
      UpdateAllAt(rows[1..], job, ids);
    }
  }

  /** The rows a job selects, by their columns. */
  lemma {:induction false} SelectedAre(rows: seq<Row>, job: Job, r: Row)
    ensures r in Select(rows, job) <==>
      && r in rows && r.sub.status == ACTIVE && r.sub.endDate.Some?
      && match job
         case Expiry(instant) => r.sub.endDate.value < instant
         case Reminder(from, to, _) => from <= r.sub.endDate.value <= to && r.sub.reminderSentAt == None
  {
    if rows != [] {
      SelectedAre(rows[1..], job, r);
      assert rows == [rows[0]] + rows[1..];
    }
  }

  lemma {:induction false} SameIdSameRow(rows: seq<Row>, r: Row, q: Row)
    requires Increasing(rows) && r in rows && q in rows && r.id == q.id
    ensures r == q
  {
    if r != rows[0] && q != rows[0] {
      assert r in rows[1..] && q in rows[1..];
      SameIdSameRow(rows[1..], r, q);
    }
  }

  lemma {:induction false} FromIsPart(rows: seq<Row>, cursor: Id, r: Row)
    requires r in From(rows, cursor)
    ensures r in rows
  {
    if r !in From(rows[1..], cursor) {
      assert r == rows[0];
    } else {
      FromIsPart(rows[1..], cursor, r);
    }
  }

  lemma PageIsSelected(rows: seq<Row>, job: Job, cursor: Option<Id>)
    ensures forall r :: r in FindMany(rows, job, cursor) ==> r in Select(rows, job)
  {
    hide Select;
    var all := Select(rows, job);
    if cursor.Some? {
      forall r | r in From(all, cursor.value) ensures r in all {
        FromIsPart(all, cursor.value, r);
      }
    }
  }

  lemma TreatsChosen(rows: seq<Row>, job: Job, chosen: seq<Row>, ok: set<Id>)
    requires Increasing(rows) && forall r :: r in chosen ==> r in Select(rows, job)
    ensures TreatsJust(job, ok, chosen, rows, UpdateAll(rows, job, Done(chosen, ok)))
  {
    hide Increasing, Select, UpdateAll;
    var now := UpdateAll(rows, job, Done(chosen, ok));
    UpdateAllAt(rows, job, Done(chosen, ok));
    forall i | 0 <= i < |rows|
      ensures if rows[i] in chosen && rows[i].id in ok then Treated(job, rows[i], now[i]) else now[i] == rows[i]
    {
      if rows[i].id in Done(chosen, ok) {
        var r :| r in chosen && r.id in ok && r.id == rows[i].id;
        SelectedAre(rows, job, r);
        SameIdSameRow(rows, r, rows[i]);
      }
    }
  }

  lemma {:induction false} DowngradedAre(job: Job, page: seq<Row>, ok: set<Id>, members: map<string, set<string>>,
                                         u: string)
    ensures u in Downgraded(job, page, ok, members) <==> job.Expiry? && BehindOne(u, ok, page, members)
  {
    if page != [] {
      var front, last := page[..|page| - 1], page[|page| - 1];
      DowngradedAre(job, front, ok, members, u);
      assert page == front + [last];
    }
  }

  lemma DowngradesChosen(premium: set<string>, job: Job, chosen: seq<Row>, ok: set<Id>,
                         members: map<string, set<string>>)
    ensures DowngradesJust(job, ok, chosen, members, premium, premium - Downgraded(job, chosen, ok, members))
  {
    hide Downgraded, BehindOne;
    forall u ensures u in Downgraded(job, chosen, ok, members) <==> job.Expiry? && BehindOne(u, ok, chosen, members) {
      DowngradedAre(job, chosen, ok, members, u);
    }
  }

  lemma DowngradedSnoc(job: Job, page: seq<Row>, i: nat, ok: set<Id>, members: map<string, set<string>>)
    requires i < |page|
    ensures Downgraded(job, page[..i + 1], ok, members)
         == Downgraded(job, page[..i], ok, members)
            + if job.Expiry? && page[i].id in ok then Beneficiaries(page[i], members) else {}
  {
    var longer := page[..i + 1];
    assert longer[..|longer| - 1] == page[..i] && longer[|longer| - 1] == page[i];
    hide Beneficiaries;
  }

  lemma {:induction false} UpdateNone(rows: seq<Row>, job: Job)
    ensures UpdateAll(rows, job, {}) == rows
  {
    if rows != [] {
      UpdateNone(rows[1..], job);
    }
  }

  lemma {:induction false} UpdateTwice(rows: seq<Row>, job: Job, ids: set<Id>, more: set<Id>)
    requires ids !! more
    ensures UpdateAll(UpdateAll(rows, job, ids), job, more) == UpdateAll(rows, job, ids + more)
  {
    if rows != [] {
      UpdateTwice(rows[1..], job, ids, more);
      assert UpdateAll(rows, job, ids)[1..] == UpdateAll(rows[1..], job, ids);
    }
  }

  lemma {:induction false} BeforeIsSmaller(rows: seq<Row>, i: nat, r: Row)
    requires Increasing(rows) && i < |rows| && r in rows[..i]
    ensures r.id < rows[i].id
  {
    if r != rows[0] {
      BeforeIsSmaller(rows[1..], i - 1, r);
    }
  }

  lemma DoneSnoc(records: seq<Row>, i: nat, ok: set<Id>)
    requires i < |records| && Increasing(records)
    ensures Done(records[..i + 1], ok) == Done(records[..i], ok) + (if records[i].id in ok then {records[i].id} else {})
    ensures records[i].id !in Done(records[..i], ok)
  {
    forall r | r in records[..i] ensures r.id != records[i].id {
      BeforeIsSmaller(records, i, r);
    }
    assert records[..i + 1] == records[..i] + [records[i]];
  }

  lemma {:induction false} SelectIncreasing(rows: seq<Row>, job: Job)
    requires Increasing(rows)
    ensures Increasing(Select(rows, job))
    ensures forall r :: r in Select(rows, job) <==> r in rows && Matches(job, r.sub)
  {
    hide Matches;
    if rows != [] {
      SelectIncreasing(rows[1..], job);
      assert rows == [rows[0]] + rows[1..];
      assert Matches(job, rows[0].sub) ==> Select(rows, job)[1..] == Select(rows[1..], job);
    }
  }

  lemma {:induction false} FromIncreasing(rows: seq<Row>, cursor: Id)
    requires Increasing(rows)
    ensures Increasing(From(rows, cursor))
    ensures forall r :: r in From(rows, cursor) ==> r in rows
  {
    if rows != [] {
      FromIncreasing(rows[1..], cursor);
      assert cursor <= rows[0].id ==> From(rows, cursor)[1..] == From(rows[1..], cursor);
    }
  }

  lemma {:induction false} PrefixIncreasing(rows: seq<Row>, n: nat)
    requires Increasing(rows) && n <= |rows|
    ensures Increasing(rows[..n])
  {
    if n > 0 {
      PrefixIncreasing(rows[1..], n - 1);
      assert rows[..n][1..] == rows[1..][..n - 1];
    }
  }

  lemma PageIncreasing(rows: seq<Row>, job: Job, cursor: Option<Id>)
    requires Increasing(rows)
    ensures Increasing(FindMany(rows, job, cursor))
  {
    SelectIncreasing(rows, job);
    var found := Select(rows, job);
    if cursor.Some? {
      FromIncreasing(found, cursor.value);
      found := SkipOne(From(found, cursor.value));
    }
    if |found| > BATCH_SIZE {
      PrefixIncreasing(found, BATCH_SIZE);
    }
  }

  /* ---- which rows a run visits ---- */

  /**
   The rows a run visits, given the due rows still ahead in id order. A page whose last row was updated no longer
   matches at the cursor, so the row that "skip: 1" drops is the next due row.
   */
  function Visited(ahead: seq<Row>, ok: set<Id>, skip: bool, pages: nat): seq<Row>
    decreases pages
  {
    var rest := if skip then SkipOne(ahead) else ahead;
    if pages == 0 then []
    else if |rest| < BATCH_SIZE then rest
    else rest[..BATCH_SIZE] + Visited(rest[BATCH_SIZE..], ok, rest[BATCH_SIZE - 1].id in ok, pages - 1)
  }

  predicate SkipsNext(all: seq<Row>, k: nat, ok: set<Id>)
    requires k <= |all|
  {
    k > 0 && all[k - 1].id in ok
  }

  function Rest(all: seq<Row>, k: nat, ok: set<Id>): seq<Row>
    requires k <= |all|
  {
    if SkipsNext(all, k, ok) then SkipOne(all[k..]) else all[k..]
  }

  function PageAt(all: seq<Row>, k: nat, ok: set<Id>): seq<Row>
    requires k <= |all|
  {
    Take(Rest(all, k, ok), BATCH_SIZE)
  }

  /** Where the rows ahead begin after the page at k. */
  function NextIndex(all: seq<Row>, k: nat, ok: set<Id>): (n: nat)
    requires k <= |all|
    ensures n <= |all|
  {
    |all| - |Rest(all, k, ok)| + |PageAt(all, k, ok)|
  }

  /** The run has passed the first k due rows, and the cursor is the last of them, which was visited. */
  ghost predicate Reached(all: seq<Row>, k: nat, done: seq<Row>, cursor: Option<Id>) {
    && k <= |all|
    && (forall r :: r in done ==> k > 0 && r.id <= all[k - 1].id)
    && (if k == 0 then cursor.None? && done == [] else cursor == Some(all[k - 1].id) && all[k - 1] in done)
  }

  lemma {:induction false} UpdateAbove(rows: seq<Row>, job: Job, ids: set<Id>, id: Id)
    requires forall r :: r in rows ==> id < r.id
    ensures forall r :: r in UpdateAll(rows, job, ids) ==> id < r.id
  {
    if rows != [] {
      UpdateAbove(rows[1..], job, ids, id);
    }
  }

  lemma {:induction false} UpdateIncreasing(rows: seq<Row>, job: Job, ids: set<Id>)
    requires Increasing(rows)
    ensures Increasing(UpdateAll(rows, job, ids))
  {
    if rows != [] {
      UpdateIncreasing(rows[1..], job, ids);
      UpdateAbove(rows[1..], job, ids, rows[0].id);
      assert UpdateAll(rows, job, ids)[1..] == UpdateAll(rows[1..], job, ids);
    }
  }

  function Without(rows: seq<Row>, ids: set<Id>): seq<Row> {
    if rows == [] then []
    else if rows[0].id in ids then Without(rows[1..], ids)
    else [rows[0]] + Without(rows[1..], ids)
  }

  /** Processing a row takes it out of the filter, and leaves the others as they are. */
  lemma {:induction false} SelectAfterUpdate(rows: seq<Row>, job: Job, ids: set<Id>)
    ensures Select(UpdateAll(rows, job, ids), job) == Without(Select(rows, job), ids)
  {
    if rows != [] {
      SelectAfterUpdate(rows[1..], job, ids);
      assert !Matches(job, Process(job, rows[0].sub));
      assert UpdateAll(rows, job, ids)[1..] == UpdateAll(rows[1..], job, ids);
      hide Matches, Process;
    }
  }

  lemma {:induction false} AllAhead(rows: seq<Row>, ids: set<Id>, cursor: Id)
    requires forall r :: r in rows ==> cursor < r.id && r.id !in ids
    ensures From(Without(rows, ids), cursor) == rows
  {
    if rows != [] {
      AllAhead(rows[1..], ids, cursor);
      assert Without(rows, ids)[1..] == Without(rows[1..], ids);
    }
  }

  /** From the cursor on there is the cursor row, unless it was updated, and then everything behind it. */
  lemma {:induction false} FromCursor(all: seq<Row>, k: nat, ids: set<Id>)
    requires Increasing(all) && 0 < k <= |all|
    requires forall id :: id in ids ==> id <= all[k - 1].id
    ensures From(Without(all, ids), all[k - 1].id) == (if all[k - 1].id in ids then [] else [all[k - 1]]) + all[k..]
  {
    if k == 1 {
      AllAhead(all[1..], ids, all[0].id);
      assert all[0].id !in ids ==> Without(all, ids)[1..] == Without(all[1..], ids);
    } else {
      BeforeIsSmaller(all, k - 1, all[0]);
      FromCursor(all[1..], k - 1, ids);
      assert all[0].id !in ids ==> Without(all, ids)[1..] == Without(all[1..], ids);
      assert all[1..][k - 1..] == all[k..];
    }
  }

  lemma {:induction false} AfterIsGreater(all: seq<Row>, k: nat, r: Row)
    requires Increasing(all) && 0 < k <= |all| && r in all[k..]
    ensures all[k - 1].id < r.id
  {
    if k == 1 {
    } else {
      assert all[1..][k - 1..] == all[k..];
      AfterIsGreater(all[1..], k - 1, r);
    }
  }

  lemma DoneBelow(done: seq<Row>, ok: set<Id>, bound: Id)
    requires forall r :: r in done ==> r.id <= bound
    ensures forall id :: id in Done(done, ok) ==> id <= bound
  {
  }

  /** The page read next is the one the plan says. */
  lemma NextPage(rows: seq<Row>, job: Job, all: seq<Row>, k: nat, done: seq<Row>, cursor: Option<Id>, ok: set<Id>)
    requires Increasing(rows) && all == Select(rows, job) && Reached(all, k, done, cursor)
    ensures FindMany(UpdateAll(rows, job, Done(done, ok)), job, cursor) == PageAt(all, k, ok)
  {
    SelectAfterUpdate(rows, job, Done(done, ok));
    SelectIncreasing(rows, job);
    if k == 0 {
      assert Done(done, ok) == {};
      UpdateNone(rows, job);
      assert all[0..] == all;
    } else {
      DoneBelow(done, ok, all[k - 1].id);
      assert all[k - 1].id in Done(done, ok) <==> all[k - 1].id in ok by { DoneOfMember(all, k, done, ok); }
      FromCursor(all, k, Done(done, ok));
      hide Select, From, Without, UpdateAll, Done, Increasing;
      assert SkipOne([all[k - 1]] + all[k..]) == all[k..];
      assert [] + all[k..] == all[k..];
    }
  }

  lemma DoneOfMember(all: seq<Row>, k: nat, done: seq<Row>, ok: set<Id>)
    requires 0 < k <= |all| && all[k - 1] in done
    ensures all[k - 1].id in Done(done, ok) <==> all[k - 1].id in ok
  {
  }

  /** The page lies behind the cursor, so its rows are new. */
  lemma PageIsAhead(all: seq<Row>, k: nat, done: seq<Row>, cursor: Option<Id>, ok: set<Id>)
    requires Increasing(all) && Reached(all, k, done, cursor)
    ensures forall r :: r in PageAt(all, k, ok) ==> k > 0 ==> all[k - 1].id < r.id
    ensures Done(done, ok) !! Done(PageAt(all, k, ok), ok)
  {
    var page := PageAt(all, k, ok);
    forall r | r in page && k > 0 ensures all[k - 1].id < r.id {
      assert r in all[k..];
      AfterIsGreater(all, k, r);
    }
    hide Increasing, PageAt;
  }

  lemma UpToIsSmaller(all: seq<Row>, n: nat, r: Row)
    requires Increasing(all) && 0 < n <= |all| && r in all[..n]
    ensures r.id <= all[n - 1].id
  {
    hide Increasing;
    assert all[..n] == all[..n - 1] + [all[n - 1]];
    if r in all[..n - 1] {
      BeforeIsSmaller(all, n - 1, r);
    }
  }

  /** A full page moves the cursor to its last row. */
  lemma PageIsReached(all: seq<Row>, k: nat, done: seq<Row>, cursor: Option<Id>, ok: set<Id>)
    requires Increasing(all) && Reached(all, k, done, cursor) && PageAt(all, k, ok) != []
    ensures var page, n := PageAt(all, k, ok), NextIndex(all, k, ok);
      n > 0 && all[n - 1] == page[|page| - 1] && Reached(all, n, done + page, Some(page[|page| - 1].id))
  {
    hide Increasing;
    var page, n := PageAt(all, k, ok), NextIndex(all, k, ok);
    PageSlice(all, k, ok);
    var last := all[n - 1];
    assert last in page;
    PageIsAhead(all, k, done, cursor, ok);
    hide PageAt, NextIndex;
    forall r | r in page ensures r.id <= last.id {
      assert r in all[..n];
      UpToIsSmaller(all, n, r);
    }
    assert forall r :: r in done + page ==> r in done || r in page;
  }

  lemma PageSlice(all: seq<Row>, k: nat, ok: set<Id>)
    requires k <= |all| && PageAt(all, k, ok) != []
    ensures var page, n := PageAt(all, k, ok), NextIndex(all, k, ok);
      |page| <= n <= |all| && page == all[n - |page|..n] && page[|page| - 1] == all[n - 1]
      && forall r :: r in page ==> r in all[..n]
  {
    var page, n := PageAt(all, k, ok), NextIndex(all, k, ok);
    assert page == all[n - |page|..n];
    assert all[..n] == all[..n - |page|] + page;
  }

  lemma {:induction false} DowngradedConcat(job: Job, a: seq<Row>, b: seq<Row>, ok: set<Id>, members: map<string,
                                            set<string>>)
    ensures Downgraded(job, a + b, ok, members) == Downgraded(job, a, ok, members) + Downgraded(job, b, ok, members)
  {
    if b == [] {
      assert a + b == a;
    } else {
      var front := b[..|b| - 1];
      assert (a + b)[..|a + b| - 1] == a + front;
      DowngradedConcat(job, a, front, ok, members);
    }
  }

  lemma DoneConcat(a: seq<Row>, b: seq<Row>, ok: set<Id>)
    ensures Done(a + b, ok) == Done(a, ok) + Done(b, ok)
  {
  }

  /** What one more page adds to the run so far. */
  lemma PageAdds(rows: seq<Row>, job: Job, all: seq<Row>, k: nat, done: seq<Row>, cursor: Option<Id>,
                 ok: set<Id>, members: map<string, set<string>>)
    requires Increasing(rows) && all == Select(rows, job) && Reached(all, k, done, cursor)
    ensures var page := PageAt(all, k, ok);
      && UpdateAll(UpdateAll(rows, job, Done(done, ok)), job, Done(page, ok))
         == UpdateAll(rows, job, Done(done + page, ok))
      && Increasing(UpdateAll(rows, job, Done(done + page, ok)))
      && |Done(done + page, ok)| == |Done(done, ok)| + |Done(page, ok)|
      && Downgraded(job, done + page, ok, members)
         == Downgraded(job, done, ok, members) + Downgraded(job, page, ok, members)
  {
    var page := PageAt(all, k, ok);
    SelectIncreasing(rows, job);
    PageIsAhead(all, k, done, cursor, ok);
    DoneConcat(done, page, ok);
    UpdateTwice(rows, job, Done(done, ok), Done(page, ok));
    UpdateIncreasing(rows, job, Done(done + page, ok));
    DowngradedConcat(job, done, page, ok, members);
    hide Increasing, UpdateAll, Done, Downgraded;
  }

  lemma UnfoldVisited(all: seq<Row>, k: nat, ok: set<Id>, pages: nat)
    requires k <= |all| && pages > 0
    ensures var page, n := PageAt(all, k, ok), NextIndex(all, k, ok);
      Visited(all[k..], ok, SkipsNext(all, k, ok), pages)
      == if |page| < BATCH_SIZE then page else page + Visited(all[n..], ok, SkipsNext(all, n, ok), pages - 1)
  {
    var rest, n := Rest(all, k, ok), NextIndex(all, k, ok);
    if |rest| >= BATCH_SIZE {
      assert rest[BATCH_SIZE..] == all[n..];
      assert rest[BATCH_SIZE - 1] == all[n - 1];
    }
  }

  /* ---- the loop of a run ---- */

  /** The state between two pages. */
  datatype Progress = Progress(rows: seq<Row>, premium: set<string>, total: nat, cursor: Option<Id>, page: nat)

  /** The rows in done have been visited, and nothing else has changed. */
  ghost predicate HasDone(was: Progress, job: Job, ok: set<Id>, members: map<string, set<string>>, s: Progress,
                          done: seq<Row>)
  {
    && s.rows == UpdateAll(was.rows, job, Done(done, ok))
    && s.premium == was.premium - Downgraded(job, done, ok, members)
    && s.total == |Done(done, ok)|
  }

  lemma HasDoneMeans(was: Progress, job: Job, ok: set<Id>, members: map<string, set<string>>, s: Progress,
                     done: seq<Row>)
    requires HasDone(was, job, ok, members, s, done)
    ensures s.rows == UpdateAll(was.rows, job, Done(done, ok))
    ensures s.premium == was.premium - Downgraded(job, done, ok, members)
    ensures s.total == |Done(done, ok)|
  {
  }

  lemma HasDoneNothing(s: Progress, job: Job, ok: set<Id>, members: map<string, set<string>>, page: seq<Row>)
    requires s.total == 0
    ensures HasDone(s, job, ok, members, s, page[..0])
  {
    assert Done(page[..0], ok) == {};
    UpdateNone(s.rows, job);
  }

  /** One record of a page, updated if its transaction succeeds. */
  lemma RecordStep(was: Progress, job: Job, ok: set<Id>, members: map<string, set<string>>, s: Progress,
                   page: seq<Row>, i: nat)
    requires i < |page| && Increasing(page) && HasDone(was, job, ok, members, s, page[..i])
    ensures var r := page[i];
      HasDone(was, job, ok, members,
        if r.id in ok
        then s.(rows := UpdateAll(s.rows, job, {r.id}),
                premium := s.premium - (if job.Expiry? then Beneficiaries(r, members) else {}),
                total := s.total + 1)
        else s,
        page[..i + 1])
  {
    hide UpdateAll, Increasing, Done, Downgraded, Beneficiaries;
    DoneSnoc(page, i, ok);
    DowngradedSnoc(job, page, i, ok, members);
    if page[i].id in ok {
      UpdateTwice(was.rows, job, Done(page[..i], ok), {page[i].id});
      if job.Expiry? {
        MinusTwice(was.premium, Downgraded(job, page[..i], ok, members), Beneficiaries(page[i], members));
      }
    }
  }

  ghost predicate InProgress(was: Progress, job: Job, ok: set<Id>, members: map<string, set<string>>, s: Progress,
                             k: nat, done: seq<Row>) {
    var all := Select(was.rows, job);
    && Increasing(was.rows) && s.page < MAX_PAGES && k <= |all|
    && HasDone(was, job, ok, members, s, done)
    && Reached(all, k, done, s.cursor)
    && Visited(all, ok, false, MAX_PAGES) == done + Visited(all[k..], ok, SkipsNext(all, k, ok), MAX_PAGES - s.page)
  }

  ghost predicate Finished(was: Progress, job: Job, ok: set<Id>, members: map<string, set<string>>, s: Progress) {
    HasDone(was, job, ok, members, s, Visited(Select(was.rows, job), ok, false, MAX_PAGES))
  }

  lemma FinishedMeans(was: Progress, job: Job, ok: set<Id>, members: map<string, set<string>>, s: Progress)
    requires Finished(was, job, ok, members, s)
    ensures var visited := Visited(Select(was.rows, job), ok, false, MAX_PAGES);
      && s.rows == UpdateAll(was.rows, job, Done(visited, ok))
      && s.premium == was.premium - Downgraded(job, visited, ok, members)
      && s.total == |Done(visited, ok)|
  {
  }

  lemma ProgressStart(s: Progress, job: Job, ok: set<Id>, members: map<string, set<string>>)
    requires Increasing(s.rows) && s.total == 0 && s.cursor == None && s.page == 0
    ensures InProgress(s, job, ok, members, s, 0, [])
  {
    var all := Select(s.rows, job);
    assert all[0..] == all;
    assert [] + Visited(all, ok, false, MAX_PAGES) == Visited(all, ok, false, MAX_PAGES);
    HasDoneNothing(s, job, ok, members, []);
    hide Visited, Increasing, HasDone;
  }

  /** The state after the page at the cursor. */
  function AfterPage(job: Job, ok: set<Id>, members: map<string, set<string>>, s: Progress): Progress {
    var page := FindMany(s.rows, job, s.cursor);
    Progress(UpdateAll(s.rows, job, Done(page, ok)),
             s.premium - Downgraded(job, page, ok, members),
             s.total + |Done(page, ok)|,
             if |page| == BATCH_SIZE then Some(page[BATCH_SIZE - 1].id) else None,
             s.page + 1)
  }

  lemma AfterPageIs(job: Job, ok: set<Id>, members: map<string, set<string>>, s: Progress, t: Progress)
    requires var page := FindMany(s.rows, job, s.cursor);
      && t.rows == UpdateAll(s.rows, job, Done(page, ok))
      && t.premium == s.premium - Downgraded(job, page, ok, members)
      && t.total == s.total + |Done(page, ok)|
      && t.cursor == (if |page| == BATCH_SIZE then Some(page[BATCH_SIZE - 1].id) else None)
      && t.page == s.page + 1
    ensures t == AfterPage(job, ok, members, s)
  {
  }

  lemma StepHasDone(was: Progress, job: Job, ok: set<Id>, members: map<string, set<string>>, s: Progress,
                    k: nat, done: seq<Row>)
    requires InProgress(was, job, ok, members, s, k, done)
    ensures var page := PageAt(Select(was.rows, job), k, ok);
      && FindMany(s.rows, job, s.cursor) == page
      && HasDone(was, job, ok, members, AfterPage(job, ok, members, s), done + page)
      && Increasing(AfterPage(job, ok, members, s).rows)
  {
    var all := Select(was.rows, job);
    NextPage(was.rows, job, all, k, done, s.cursor, ok);
    PageAdds(was.rows, job, all, k, done, s.cursor, ok, members);
    hide FindMany, UpdateAll, Increasing, Done, Downgraded, Select, Visited, PageAt, Reached;
    MinusTwice(was.premium, Downgraded(job, done, ok, members), Downgraded(job, PageAt(all, k, ok), ok, members));
  }

  lemma MinusTwice(a: set<string>, b: set<string>, c: set<string>)
    ensures (a - b) - c == a - (b + c)
  {
  }

  lemma StepVisited(all: seq<Row>, ok: set<Id>, k: nat, done: seq<Row>, pages: nat)
    requires k <= |all| && pages > 0
    ensures var page, n := PageAt(all, k, ok), NextIndex(all, k, ok);
      done + Visited(all[k..], ok, SkipsNext(all, k, ok), pages)
      == if |page| < BATCH_SIZE || pages == 1 then done + page
         else done + page + Visited(all[n..], ok, SkipsNext(all, n, ok), pages - 1)
  {
    UnfoldVisited(all, k, ok, pages);
    var page, n := PageAt(all, k, ok), NextIndex(all, k, ok);
    assert Visited(all[n..], ok, SkipsNext(all, n, ok), 0) == [];
    hide PageAt, NextIndex, Visited, SkipsNext;
    Append(done, page, Visited(all[n..], ok, SkipsNext(all, n, ok), pages - 1));
    assert page + [] == page;
  }

  lemma ProgressStep(was: Progress, job: Job, ok: set<Id>, members: map<string, set<string>>, s: Progress,
                     k: nat, done: seq<Row>)
    requires InProgress(was, job, ok, members, s, k, done)
    ensures var page, n := PageAt(Select(was.rows, job), k, ok), NextIndex(Select(was.rows, job), k, ok);
      var t := AfterPage(job, ok, members, s);
      && Increasing(t.rows)
      && if t.cursor.Some? && t.page < MAX_PAGES then InProgress(was, job, ok, members, t, n, done + page)
         else Finished(was, job, ok, members, t)
  {
    hide FindMany, UpdateAll, Increasing, Done, Downgraded, Select, Visited, PageAt, NextIndex, Reached, HasDone,
         SkipsNext;
    var all := Select(was.rows, job);
    var page, n, t := PageAt(all, k, ok), NextIndex(all, k, ok), AfterPage(job, ok, members, s);
    SelectIncreasing(was.rows, job);
    StepHasDone(was, job, ok, members, s, k, done);
    StepVisited(all, ok, k, done, MAX_PAGES - s.page);
    PageSize(all, k, ok);
    if |page| == BATCH_SIZE {
      PageIsReached(all, k, done, s.cursor, ok);
      assert t.cursor == Some(page[|page| - 1].id);
    }
  }

  lemma PageSize(all: seq<Row>, k: nat, ok: set<Id>)
    requires k <= |all|
    ensures |PageAt(all, k, ok)| <= BATCH_SIZE
  {
  }

  lemma Append(a: seq<Row>, b: seq<Row>, c: seq<Row>)
    ensures a + (b + c) == (a + b) + c
  {
  }

  /* ---- what a run leaves behind ---- */

  lemma {:induction false} VisitedIsDue(ahead: seq<Row>, ok: set<Id>, skip: bool, pages: nat, r: Row)
    requires r in Visited(ahead, ok, skip, pages)
    ensures r in ahead
    decreases pages
  {
    var rest := if skip then SkipOne(ahead) else ahead;
    if |rest| >= BATCH_SIZE && r !in rest[..BATCH_SIZE] {
      VisitedIsDue(rest[BATCH_SIZE..], ok, rest[BATCH_SIZE - 1].id in ok, pages - 1, r);
    }
  }

  /** Ids are visited in increasing order, each at most once: no reminder is sent twice in a run. */
  lemma {:induction false} VisitedOnce(ahead: seq<Row>, ok: set<Id>, skip: bool, pages: nat)
    requires Increasing(ahead)
    ensures Increasing(Visited(ahead, ok, skip, pages))
    decreases pages
  {
    hide Increasing;
    var from := if skip && ahead != [] then 1 else 0;
    var rest := ahead[from..];
    assert rest == if skip then SkipOne(ahead) else ahead;
    SuffixIncreasing(ahead, from);
    if |rest| < BATCH_SIZE || pages == 0 {
      SuffixIncreasing(rest, |rest|);
      assert rest[|rest|..] == [];
    } else {
      var tail, skipNext := rest[BATCH_SIZE..], rest[BATCH_SIZE - 1].id in ok;
      SuffixIncreasing(rest, BATCH_SIZE);
      VisitedOnce(tail, ok, skipNext, pages - 1);
      forall r | r in Visited(tail, ok, skipNext, pages - 1) ensures r in tail {
        VisitedIsDue(tail, ok, skipNext, pages - 1, r);
      }
      PrefixOfIncreasing(rest, BATCH_SIZE, Visited(tail, ok, skipNext, pages - 1));
    }
  }

  lemma {:induction false} SuffixIncreasing(rows: seq<Row>, n: nat)
    requires Increasing(rows) && n <= |rows|
    ensures Increasing(rows[n..])
  {
    if n > 0 {
      SuffixIncreasing(rows[1..], n - 1);
      assert rows[1..][n - 1..] == rows[n..];
    } else {
      assert rows[0..] == rows;
    }
  }

  lemma PrependIncreasing(first: Row, rest: seq<Row>)
    requires Increasing(rest) && forall r :: r in rest ==> first.id < r.id
    ensures Increasing([first] + rest)
  {
    assert ([first] + rest)[1..] == rest;
  }

  lemma IncreasingTail(rows: seq<Row>)
    requires Increasing(rows) && rows != []
    ensures Increasing(rows[1..]) && forall r :: r in rows[1..] ==> rows[0].id < r.id
  {
  }

  lemma {:induction false} PrefixOfIncreasing(rows: seq<Row>, n: nat, later: seq<Row>)
    requires Increasing(rows) && n <= |rows| && Increasing(later)
    requires forall r :: r in later ==> r in rows[n..]
    ensures Increasing(rows[..n] + later)
  {
    hide Increasing;
    if n == 0 {
      assert rows[..0] + later == later;
    } else {
      var rest := rows[1..];
      IncreasingTail(rows);
      assert rest[n - 1..] == rows[n..] && rest == rest[..n - 1] + rest[n - 1..];
      PrefixOfIncreasing(rest, n - 1, later);
      assert forall r :: r in rest[..n - 1] + later ==> r in rest;
      PrependIncreasing(rows[0], rest[..n - 1] + later);
      assert rows[..n] + later == [rows[0]] + (rest[..n - 1] + later);
    }
  }

  /**
   Per full page at most one row is passed over, whatever fails: a run below the page cap that visits v rows misses
   at most v / 50 of the due ones.
   */
  lemma {:induction false} LossBound(ahead: seq<Row>, ok: set<Id>, skip: bool, pages: nat)
    requires |ahead| <= BATCH_SIZE * pages
    ensures var v := |Visited(ahead, ok, skip, pages)|;
      v <= |ahead| <= v + v / 50 + (if skip then 1 else 0)
    decreases pages
  {
    var rest := if skip then SkipOne(ahead) else ahead;
    if pages > 0 && |rest| >= BATCH_SIZE {
      LossBound(rest[BATCH_SIZE..], ok, rest[BATCH_SIZE - 1].id in ok, pages - 1);
    }
  }

  /** Nothing is passed over when no update succeeds: the cursor row still matches and is the one skipped. */
  lemma {:induction false} NoLossWithoutUpdates(ahead: seq<Row>, pages: nat)
    requires |ahead| <= BATCH_SIZE * pages
    ensures Visited(ahead, {}, false, pages) == ahead
    decreases pages
  {
    if pages > 0 && |ahead| >= BATCH_SIZE {
      NoLossWithoutUpdates(ahead[BATCH_SIZE..], pages - 1);
      assert ahead == ahead[..BATCH_SIZE] + ahead[BATCH_SIZE..];
    }
  }

  /** Fifty in, one out, and so on; c rows of the current fifty are already in. */
  function FiftyOfFiftyOne(rows: seq<Row>, c: nat): seq<Row> {
    if rows == [] then []
    else if c == BATCH_SIZE then FiftyOfFiftyOne(rows[1..], 0)
    else [rows[0]] + FiftyOfFiftyOne(rows[1..], c + 1)
  }

  lemma {:induction false} FirstOfFifty(rows: seq<Row>, c: nat, n: nat)
    requires n <= |rows| && c + n <= BATCH_SIZE
    ensures FiftyOfFiftyOne(rows, c) == rows[..n] + FiftyOfFiftyOne(rows[n..], c + n)
  {
    if n == 0 {
      assert rows[..0] + FiftyOfFiftyOne(rows[0..], c) == FiftyOfFiftyOne(rows, c) by { assert rows[0..] == rows; }
    } else {
      FirstOfFifty(rows[1..], c + 1, n - 1);
      assert rows[1..][n - 1..] == rows[n..];
      assert [rows[0]] + rows[1..][..n - 1] == rows[..n];
    }
  }

  /**
   When every update succeeds a run visits fifty due rows of every fifty-one: it misses the one after each full page.
   */
  lemma {:induction false} MissesEveryFiftyFirst(ahead: seq<Row>, ok: set<Id>, skip: bool, pages: nat)
    requires |ahead| <= 51 * pages + (if skip then 1 else 0)
    requires forall r :: r in ahead ==> r.id in ok
    ensures Visited(ahead, ok, skip, pages) == FiftyOfFiftyOne(ahead, if skip then BATCH_SIZE else 0)
    decreases pages
  {
    var rest := if skip then SkipOne(ahead) else ahead;
    assert FiftyOfFiftyOne(ahead, if skip then BATCH_SIZE else 0) == FiftyOfFiftyOne(rest, 0);
    if pages > 0 && |rest| >= BATCH_SIZE {
      assert rest[BATCH_SIZE - 1] in ahead;
      FirstOfFifty(rest, 0, BATCH_SIZE);
      MissesEveryFiftyFirst(rest[BATCH_SIZE..], ok, true, pages - 1);
    } else if pages > 0 {
      FirstOfFifty(rest, 0, |rest|);
      assert rest[..|rest|] == rest && rest + [] == rest;
    }
  }

  /** The number of rows a run visits when every update succeeds, page cap included. */
  lemma {:induction false} VisitedCount(ahead: seq<Row>, ok: set<Id>, skip: bool, pages: nat)
    requires forall r :: r in ahead ==> r.id in ok
    ensures var n := |ahead|;
      |Visited(ahead, ok, skip, pages)|
      == if n > 51 * pages then 50 * pages else n - (if skip then (n + 50) / 51 else n / 51)
    decreases pages
  {
    var rest := if skip then SkipOne(ahead) else ahead;
    if pages > 0 && |rest| >= BATCH_SIZE {
      assert rest[BATCH_SIZE - 1] in ahead;
      VisitedCount(rest[BATCH_SIZE..], ok, true, pages - 1);
    }
  }

  /** The due rows a run leaves, out of n, when every update succeeds. */
  function LeftOf(n: nat): nat {
    if n <= 51 * MAX_PAGES then n / 51 else n - 50 * MAX_PAGES
  }

  function Ids(rows: seq<Row>): set<Id> { set r | r in rows :: r.id }

  /** The table after a run in which every update succeeds. */
  function Swept(rows: seq<Row>, job: Job): seq<Row> {
    UpdateAll(rows, job, Done(Visited(Select(rows, job), Ids(rows), false, MAX_PAGES), Ids(rows)))
  }

  lemma TailIds(rows: seq<Row>)
    requires Increasing(rows) && rows != []
    ensures Ids(rows) == {rows[0].id} + Ids(rows[1..]) && rows[0].id !in Ids(rows[1..])
  {
    assert rows == [rows[0]] + rows[1..];
  }

  lemma {:induction false} WithoutCount(rows: seq<Row>, ids: set<Id>)
    requires Increasing(rows) && ids <= Ids(rows)
    ensures |Without(rows, ids)| == |rows| - |ids|
  {
    if rows == [] {
      assert ids == {};
    } else {
      var id := rows[0].id;
      TailIds(rows);
      assert forall r :: r in rows[1..] ==> r.id != id;
      hide Ids, Increasing;
      if id in ids {
        WithoutCount(rows[1..], ids - {id});
        SameWithout(rows[1..], ids, ids - {id});
      } else {
        WithoutCount(rows[1..], ids);
      }
    }
  }

  lemma {:induction false} SameWithout(rows: seq<Row>, ids: set<Id>, others: set<Id>)
    requires forall r :: r in rows ==> (r.id in ids <==> r.id in others)
    ensures Without(rows, ids) == Without(rows, others)
  {
    if rows != [] {
      SameWithout(rows[1..], ids, others);
    }
  }

  lemma {:induction false} DoneCount(rows: seq<Row>, ok: set<Id>)
    requires Increasing(rows) && forall r :: r in rows ==> r.id in ok
    ensures |Done(rows, ok)| == |rows|
  {
    if rows != [] {
      DoneCount(rows[1..], ok);
      assert Done(rows, ok) == {rows[0].id} + Done(rows[1..], ok);
    }
  }

  /**
   A run over n due rows, every update succeeding and nobody else writing, leaves exactly n / 51 of them due
   (n - 500050 above the page cap).
   */
  lemma SweepLeaves(rows: seq<Row>, job: Job)
    requires Increasing(rows)
    ensures Increasing(Swept(rows, job))
    ensures |Select(Swept(rows, job), job)| == LeftOf(|Select(rows, job)|)
  {
    var all, ok := Select(rows, job), Ids(rows);
    var visited := Visited(all, ok, false, MAX_PAGES);
    SelectIncreasing(rows, job);
    VisitedOnce(all, ok, false, MAX_PAGES);
    forall r | r in visited ensures r in all {
      VisitedIsDue(all, ok, false, MAX_PAGES, r);
    }
    VisitedCount(all, ok, false, MAX_PAGES);
    DoneCount(visited, ok);
    assert Done(visited, ok) <= Ids(all);
    SelectAfterUpdate(rows, job, Done(visited, ok));
    WithoutCount(all, Done(visited, ok));
    UpdateIncreasing(rows, job, Done(visited, ok));
    hide Visited, Select, Without, UpdateAll, Increasing, Done;
  }

  function SweptTimes(rows: seq<Row>, job: Job, times: nat): seq<Row>
    decreases times
  {
    if times == 0 then rows else SweptTimes(Swept(rows, job), job, times - 1)
  }

  function Power(times: nat): nat { if times == 0 then 1 else 51 * Power(times - 1) }

  /** Fewer than 51^k due rows are gone after k runs at the same instant: 50 after one run, 2600 after two. */
  lemma {:induction false} RepeatedSweeps(rows: seq<Row>, job: Job, times: nat)
    requires Increasing(rows) && |Select(rows, job)| <= 51 * MAX_PAGES
    requires |Select(rows, job)| < Power(times)
    ensures Select(SweptTimes(rows, job, times), job) == []
    decreases times
  {
    hide Select, Swept, Increasing;
    if times > 0 {
      SweepLeaves(rows, job);
      RepeatedSweeps(Swept(rows, job), job, times - 1);
    }
  }

  /** However many rows are due, enough runs at the same instant leave none. */
  lemma {:induction false} EventuallyNoneDue(rows: seq<Row>, job: Job, times: nat)
    requires Increasing(rows) && |Select(rows, job)| <= times
    ensures Select(SweptTimes(rows, job, times), job) == []
    decreases times
  {
    hide Select, Swept, Increasing;
    if times > 0 {
      SweepLeaves(rows, job);
      EventuallyNoneDue(Swept(rows, job), job, times - 1);
    }
  }
}
