/** Replacing a company's social links: delete what the payload does not name, then upsert (company.service.ts). */
module SocialLinks {
  import opened Wrappers

  datatype Link = Link(platform: string, url: string)

  datatype Row = Row(companyId: string, link: Link)

  /** A link of the request; an id that is not a UUID counts as none. */
  datatype Entry = Entry(id: Option<int>, link: Link)

  type Table = map<int, Row>

  function NamedIds(payload: seq<Entry>): set<int> {
    set e | e in payload && e.id.Some? :: e.id.value
  }

  /** deleteMany: the company's rows whose id the payload does not name. */
  function Pruned(rows: Table, companyId: string, payload: seq<Entry>): Table {
    map id | id in rows && (rows[id].companyId != companyId || id in NamedIds(payload)) :: rows[id]
  }

  /** upsert or create; a created row gets the key generated for it, not the id of the request. */
  function Upsert(rows: Table, companyId: string, e: Entry, generated: int): Table {
    if e.id.Some? && e.id.value in rows
    then rows[e.id.value := rows[e.id.value].(link := e.link)]
    else rows[generated := Row(companyId, e.link)]
  }

  function UpsertAll(rows: Table, companyId: string, payload: seq<Entry>, generated: seq<int>): Table
    requires |generated| == |payload|
  {
    if payload == [] then rows
    else
      var n := |payload| - 1;
      Upsert(UpsertAll(rows, companyId, payload[..n], generated[..n]), companyId, payload[n], generated[n])
  }

  /** The generated keys are new: distinct, not in the table and not named by the payload. */
  ghost predicate FreshKeys(rows: Table, payload: seq<Entry>, generated: seq<int>) {
    && |generated| == |payload|
    && (forall i :: 0 <= i < |generated| ==> generated[i] !in rows && generated[i] !in NamedIds(payload))
    && (forall i, j :: 0 <= i < j < |generated| ==> generated[i] != generated[j])
  }

  class SocialLinkTable {
    var rows: Table

    method Replace(companyId: string, payload: seq<Entry>, generated: seq<int>)
      requires FreshKeys(rows, payload, generated)
      modifies this
      ensures rows == UpsertAll(Pruned(old(rows), companyId, payload), companyId, payload, generated)
    {
      var currentLinkIds := set e | e in payload && e.id.Some? :: e.id.value;
      rows := map id | id in rows && !(rows[id].companyId == companyId && id !in currentLinkIds) :: rows[id];
      ghost var pruned := rows;
      assert currentLinkIds == NamedIds(payload);
      assert pruned == Pruned(old(rows), companyId, payload);
      for i := 0 to |payload|
        invariant rows == UpsertAll(pruned, companyId, payload[..i], generated[..i])
      {
        assert payload[..i + 1][..i] == payload[..i] && generated[..i + 1][..i] == generated[..i];
        var link := payload[i];
        if link.id.Some? && link.id.value in rows {
          rows := rows[link.id.value := rows[link.id.value].(link := link.link)];
        } else {
          rows := rows[generated[i] := Row(companyId, link.link)];
        }
      }
      assert payload[..|payload|] == payload && generated[..|generated|] == generated;
    }
  }

  /* ---- what the replacement achieves ---- */

  function IdsWith(rows: Table, companyId: string, link: Link): set<int> {
    set id | id in rows && rows[id] == Row(companyId, link)
  }

  function Links(payload: seq<Entry>): seq<Link> {
    seq(|payload|, i requires 0 <= i < |payload| => payload[i].link)
  }

  /** The company has exactly the links of the payload, as a multiset, and nobody else's rows changed. */
  ghost predicate Replaced(was: Table, now: Table, companyId: string, payload: seq<Entry>) {
    && (forall link :: |IdsWith(now, companyId, link)| == multiset(Links(payload))[link])
    && (forall id :: id in was && was[id].companyId != companyId ==> id in now && now[id] == was[id])
    && (forall id :: id in now && now[id].companyId != companyId ==> id in was)
  }

  /** The ids of the payload that exist belong to the company, and none is named twice. */
  ghost predicate OwnIdsOnce(rows: Table, companyId: string, payload: seq<Entry>) {
    && (forall i :: 0 <= i < |payload| && payload[i].id.Some? && payload[i].id.value in rows ==>
          rows[payload[i].id.value].companyId == companyId)
    && (forall i, j :: 0 <= i < j < |payload| && payload[i].id.Some? && payload[i].id.value in rows ==>
          payload[i].id != payload[j].id)
  }

  /** The row an entry ends up in. */
  function Target(rows: Table, payload: seq<Entry>, generated: seq<int>, i: nat): int
    requires i < |payload| == |generated|
  {
    if payload[i].id.Some? && payload[i].id.value in rows then payload[i].id.value else generated[i]
  }

  /** The table after the first n entries. */
  function After(rows: Table, companyId: string, payload: seq<Entry>, generated: seq<int>, n: nat): Table
    requires n <= |payload| == |generated|
  {
    UpsertAll(Pruned(rows, companyId, payload), companyId, payload[..n], generated[..n])
  }

  ghost predicate IsTarget(rows: Table, payload: seq<Entry>, generated: seq<int>, n: nat, id: int)
    requires n <= |payload| == |generated|
  {
    exists i :: 0 <= i < n && Target(rows, payload, generated, i) == id
  }

  lemma AfterStep(rows: Table, companyId: string, payload: seq<Entry>, generated: seq<int>, n: nat)
    requires n < |payload| == |generated|
    ensures After(rows, companyId, payload, generated, n + 1)
         == Upsert(After(rows, companyId, payload, generated, n), companyId, payload[n], generated[n])
  {
    assert payload[..n + 1][..n] == payload[..n] && generated[..n + 1][..n] == generated[..n];
    hide Upsert, Pruned;
  }

  /** The rows after n entries are the kept ones and the targets of the entries. */
  lemma {:induction false} AfterKeys(rows: Table, companyId: string, payload: seq<Entry>, generated: seq<int>, n: nat,
                                     id: int)
    requires FreshKeys(rows, payload, generated) && n <= |payload|
    ensures id in After(rows, companyId, payload, generated, n)
       <==> id in Pruned(rows, companyId, payload) || IsTarget(rows, payload, generated, n, id)
    decreases n, 0
  {
    if n > 0 {
      var m := n - 1;
      AfterKeys(rows, companyId, payload, generated, m, id);
      UpsertWritesTarget(rows, companyId, payload, generated, m);
      hide After, Pruned, FreshKeys;
      if id == Target(rows, payload, generated, m) {
        assert IsTarget(rows, payload, generated, n, id);
      } else if IsTarget(rows, payload, generated, n, id) {
        var i :| 0 <= i < n && Target(rows, payload, generated, i) == id;
        assert i < m;
      }
    }
  }

  /** An entry's id is in the table when its turn comes exactly if it was there at the start. */
  lemma NamedStays(rows: Table, companyId: string, payload: seq<Entry>, generated: seq<int>, n: nat, id: int)
    requires FreshKeys(rows, payload, generated) && n <= |payload| && id in NamedIds(payload)
    ensures id in After(rows, companyId, payload, generated, n) <==> id in rows
    decreases n, 1
  {
    AfterKeys(rows, companyId, payload, generated, n, id);
    hide After;
  }

  lemma UpsertWritesTarget(rows: Table, companyId: string, payload: seq<Entry>, generated: seq<int>, n: nat)
    requires FreshKeys(rows, payload, generated) && n < |payload|
    ensures var before, target := After(rows, companyId, payload, generated, n), Target(rows, payload, generated, n);
      && (target in before <==> target in rows && payload[n].id == Some(target))
      && After(rows, companyId, payload, generated, n + 1)
         == before[target := Row(if target in before then before[target].companyId else companyId, payload[n].link)]
    decreases n, 2
  {
    AfterStep(rows, companyId, payload, generated, n);
    if payload[n].id.Some? {
      NamedStays(rows, companyId, payload, generated, n, payload[n].id.value);
    }
    AfterKeys(rows, companyId, payload, generated, n, generated[n]);
    hide After;
  }

  lemma {:induction false} AfterRow(rows: Table, companyId: string, payload: seq<Entry>, generated: seq<int>, n: nat,
                                    id: int)
    requires FreshKeys(rows, payload, generated) && n <= |payload|
    requires id in After(rows, companyId, payload, generated, n)
    ensures var pruned, now := Pruned(rows, companyId, payload), After(rows, companyId, payload, generated, n);
      && now[id].companyId == (if id in pruned then pruned[id].companyId else companyId)
      && (id in pruned && !IsTarget(rows, payload, generated, n, id) ==> now[id] == pruned[id])
  {
    if n == 0 {
      assert After(rows, companyId, payload, generated, 0) == Pruned(rows, companyId, payload);
    } else {
      var m, pruned := n - 1, Pruned(rows, companyId, payload);
      var before, target := After(rows, companyId, payload, generated, m), Target(rows, payload, generated, m);
      UpsertWritesTarget(rows, companyId, payload, generated, m);
      AfterKeys(rows, companyId, payload, generated, m, id);
      if id in before {
        AfterRow(rows, companyId, payload, generated, m, id);
      }
      assert id == target ==> IsTarget(rows, payload, generated, n, id);
      assert !IsTarget(rows, payload, generated, n, id) ==> !IsTarget(rows, payload, generated, m, id);
      hide After, Pruned, Target, FreshKeys, IsTarget;
    }
  }

  /** The last entry with a target decides its link. */
  lemma {:induction false} LastWriter(rows: Table, companyId: string, payload: seq<Entry>, generated: seq<int>,
                                      n: nat, i: nat)
    requires FreshKeys(rows, payload, generated) && i < n <= |payload|
    requires forall j :: i < j < n ==> Target(rows, payload, generated, j) != Target(rows, payload, generated, i)
    ensures var now, target := After(rows, companyId, payload, generated, n), Target(rows, payload, generated, i);
      target in now && now[target].link == payload[i].link
  {
    UpsertWritesTarget(rows, companyId, payload, generated, n - 1);
    if i < n - 1 {
      LastWriter(rows, companyId, payload, generated, n - 1, i);
    }
    hide After, FreshKeys;
  }

  lemma TargetsDistinct(rows: Table, companyId: string, payload: seq<Entry>, generated: seq<int>, i: nat, j: nat)
    requires FreshKeys(rows, payload, generated) && OwnIdsOnce(rows, companyId, payload) && i < j < |payload|
    ensures Target(rows, payload, generated, i) != Target(rows, payload, generated, j)
  {
    assert payload[i].id.Some? ==> payload[i].id.value in NamedIds(payload);
    assert payload[j].id.Some? ==> payload[j].id.value in NamedIds(payload);
    hide NamedIds;
  }

  function TargetsWith(rows: Table, payload: seq<Entry>, generated: seq<int>, n: nat, link: Link): set<int>
    requires n <= |payload| == |generated|
  {
    set i | 0 <= i < n && payload[i].link == link :: Target(rows, payload, generated, i)
  }

  lemma {:induction false} TargetCount(rows: Table, companyId: string, payload: seq<Entry>, generated: seq<int>,
                                       n: nat, link: Link)
    requires FreshKeys(rows, payload, generated) && OwnIdsOnce(rows, companyId, payload) && n <= |payload|
    ensures |TargetsWith(rows, payload, generated, n, link)| == multiset(Links(payload)[..n])[link]
  {
    if n > 0 {
      var m := n - 1;
      TargetCount(rows, companyId, payload, generated, m, link);
      LinksSnoc(payload, m);
      forall i | 0 <= i < m ensures Target(rows, payload, generated, i) != Target(rows, payload, generated, m) {
        TargetsDistinct(rows, companyId, payload, generated, i, m);
      }
      TargetsSnoc(rows, payload, generated, m, link);
      hide Target, TargetsWith, FreshKeys, OwnIdsOnce, Links, NamedIds;
    }
  }

  lemma TargetsSnoc(rows: Table, payload: seq<Entry>, generated: seq<int>, m: nat, link: Link)
    requires m < |payload| == |generated|
    requires forall i :: 0 <= i < m ==> Target(rows, payload, generated, i) != Target(rows, payload, generated, m)
    ensures |TargetsWith(rows, payload, generated, m + 1, link)|
         == |TargetsWith(rows, payload, generated, m, link)| + if payload[m].link == link then 1 else 0
  {
    hide Target;
    var target, was := Target(rows, payload, generated, m), TargetsWith(rows, payload, generated, m, link);
    assert target !in was;
    assert TargetsWith(rows, payload, generated, m + 1, link)
        == if payload[m].link == link then was + {target} else was;
  }

  lemma LinksSnoc(payload: seq<Entry>, m: nat)
    requires m < |payload|
    ensures |Links(payload)| == |payload|
    ensures Links(payload)[..m + 1] == Links(payload)[..m] + [payload[m].link]
  {
  }

  function Result(rows: Table, companyId: string, payload: seq<Entry>, generated: seq<int>): Table
    requires |payload| == |generated|
  {
    After(rows, companyId, payload, generated, |payload|)
  }

  /** A row of the company after the replacement is the target of an entry, and the other way round when ids are own. */
  lemma OwnIsTarget(rows: Table, companyId: string, payload: seq<Entry>, generated: seq<int>, id: int)
    requires FreshKeys(rows, payload, generated)
    ensures var now := Result(rows, companyId, payload, generated);
      && (id in now && now[id].companyId == companyId ==> IsTarget(rows, payload, generated, |payload|, id))
      && (IsTarget(rows, payload, generated, |payload|, id) ==> id in now)
      && (IsTarget(rows, payload, generated, |payload|, id) && OwnIdsOnce(rows, companyId, payload) ==>
            now[id].companyId == companyId)
  {
    var n, now := |payload|, Result(rows, companyId, payload, generated);
    AfterKeys(rows, companyId, payload, generated, n, id);
    if id in now {
      AfterRow(rows, companyId, payload, generated, n, id);
      hide After;
      if id in Pruned(rows, companyId, payload) && rows[id].companyId == companyId {
        var e :| e in payload && e.id == Some(id);
        var i :| 0 <= i < n && payload[i] == e;
        assert Target(rows, payload, generated, i) == id;
      }
    }
  }

  lemma ReplacedWhenOwnIdsOnce(rows: Table, companyId: string, payload: seq<Entry>, generated: seq<int>)
    requires FreshKeys(rows, payload, generated) && OwnIdsOnce(rows, companyId, payload)
    ensures Replaced(rows, Result(rows, companyId, payload, generated), companyId, payload)
  {
    var n, now := |payload|, Result(rows, companyId, payload, generated);
    forall link ensures |IdsWith(now, companyId, link)| == multiset(Links(payload))[link] {
      TargetCount(rows, companyId, payload, generated, n, link);
      assert Links(payload)[..n] == Links(payload);
      IdsAreTargets(rows, companyId, payload, generated, link);
    }
    forall id | id in rows && rows[id].companyId != companyId ensures id in now && now[id] == rows[id] {
      AfterKeys(rows, companyId, payload, generated, n, id);
      AfterRow(rows, companyId, payload, generated, n, id);
      OwnIsTarget(rows, companyId, payload, generated, id);
    }
    forall id | id in now && now[id].companyId != companyId ensures id in rows {
      AfterRow(rows, companyId, payload, generated, n, id);
    }
    hide After;
  }

  lemma IdsAreTargets(rows: Table, companyId: string, payload: seq<Entry>, generated: seq<int>, link: Link)
    requires FreshKeys(rows, payload, generated) && OwnIdsOnce(rows, companyId, payload)
    ensures IdsWith(Result(rows, companyId, payload, generated), companyId, link)
         == TargetsWith(rows, payload, generated, |payload|, link)
  {
    var n, now := |payload|, Result(rows, companyId, payload, generated);
    hide After, Target, FreshKeys, OwnIdsOnce;
    forall i | 0 <= i < n
      ensures var t := Target(rows, payload, generated, i);
        t in now && now[t] == Row(companyId, payload[i].link)
    {
      var t := Target(rows, payload, generated, i);
      assert IsTarget(rows, payload, generated, n, t);
      OwnIsTarget(rows, companyId, payload, generated, t);
      forall j | i < j < n ensures Target(rows, payload, generated, j) != t {
        TargetsDistinct(rows, companyId, payload, generated, i, j);
      }
      LastWriter(rows, companyId, payload, generated, n, i);
    }
    forall id | id in IdsWith(now, companyId, link) ensures id in TargetsWith(rows, payload, generated, n, link) {
      OwnIsTarget(rows, companyId, payload, generated, id);
    }
  }

  /* ---- the converse ---- */

  ghost function Pick<T>(s: set<T>): (x: T)
    requires s != {}
    ensures x in s
  {
    var x :| x in s;
    x
  }

  function Labelled(ids: set<int>, rows: Table, link: Link): set<int> {
    set id | id in ids && id in rows && rows[id].link == link
  }

  /** If every link occurs as often among some rows as in a multiset, there are as many rows as links. */
  lemma {:induction false} CountsDetermineSize(ids: set<int>, rows: Table, links: multiset<Link>)
    requires ids <= rows.Keys
    requires forall link :: |Labelled(ids, rows, link)| == links[link]
    ensures |ids| == |links|
  {
    if ids != {} {
      var id := Pick(ids);
      var link, rest := rows[id].link, ids - {id};
      assert id in Labelled(ids, rows, link);
      assert links[link] > 0;
      forall l ensures |Labelled(rest, rows, l)| == (links - multiset{link})[l] {
        assert Labelled(rest, rows, l) == if l == link then Labelled(ids, rows, l) - {id} else Labelled(ids, rows, l);
      }
      CountsDetermineSize(rest, rows, links - multiset{link});
    } else {
      forall link ensures links[link] == 0 {
        assert Labelled(ids, rows, link) == {};
      }
      assert links == multiset{};
    }
  }

  /** The targets of all entries but one. */
  function OtherTargets(rows: Table, payload: seq<Entry>, generated: seq<int>, n: nat, but: nat): set<int>
    requires n <= |payload| == |generated|
  {
    set i | 0 <= i < n && i != but :: Target(rows, payload, generated, i)
  }

  lemma {:induction false} FewerTargets(rows: Table, payload: seq<Entry>, generated: seq<int>, n: nat, but: nat)
    requires n <= |payload| == |generated|
    ensures |OtherTargets(rows, payload, generated, n, but)| <= if but < n then n - 1 else n
  {
    hide Target;
    if n > 0 {
      var m := n - 1;
      FewerTargets(rows, payload, generated, m, but);
      var was := OtherTargets(rows, payload, generated, m, but);
      assert OtherTargets(rows, payload, generated, n, but)
          == if m == but then was else was + {Target(rows, payload, generated, m)};
    }
  }

  function OwnIds(rows: Table, companyId: string): set<int> {
    set id | id in rows && rows[id].companyId == companyId
  }

  /** An entry whose target does not count, or is also another entry's, leaves the company with too few links. */
  lemma TooFew(rows: Table, companyId: string, payload: seq<Entry>, generated: seq<int>, but: nat)
    requires FreshKeys(rows, payload, generated) && but < |payload|
    requires OwnIds(Result(rows, companyId, payload, generated), companyId)
          <= OtherTargets(rows, payload, generated, |payload|, but)
    ensures !Replaced(rows, Result(rows, companyId, payload, generated), companyId, payload)
  {
    var now := Result(rows, companyId, payload, generated);
    var own, others := OwnIds(now, companyId), OtherTargets(rows, payload, generated, |payload|, but);
    FewerTargets(rows, payload, generated, |payload|, but);
    SubsetSize(own, others);
    hide Result, FreshKeys, OtherTargets;
    if Replaced(rows, now, companyId, payload) {
      forall link ensures |Labelled(own, now, link)| == multiset(Links(payload))[link] {
        assert Labelled(own, now, link) == IdsWith(now, companyId, link);
      }
      CountsDetermineSize(own, now, multiset(Links(payload)));
    }
  }

  lemma {:induction false} SubsetSize(a: set<int>, b: set<int>)
    requires a <= b
    ensures |a| <= |b|
  {
    if a != {} {
      var x := Pick(a);
      SubsetSize(a - {x}, b - {x});
    }
  }

  lemma NotReplacedOtherwise(rows: Table, companyId: string, payload: seq<Entry>, generated: seq<int>)
    requires FreshKeys(rows, payload, generated) && !OwnIdsOnce(rows, companyId, payload)
    ensures !Replaced(rows, Result(rows, companyId, payload, generated), companyId, payload)
  {
    var n, now := |payload|, Result(rows, companyId, payload, generated);
    hide Result;
    if i :| 0 <= i < n && payload[i].id.Some? && payload[i].id.value in rows
            && rows[payload[i].id.value].companyId != companyId {
      forall id | id in OwnIds(now, companyId) ensures id in OtherTargets(rows, payload, generated, n, i) {
        OwnIsTarget(rows, companyId, payload, generated, id);
        ForeignStays(rows, companyId, payload, generated, payload[i].id.value);
      }
      TooFew(rows, companyId, payload, generated, i);
    } else {
      var i, j :| 0 <= i < j < n && payload[i].id == payload[j].id
                  && payload[i].id.Some? && payload[i].id.value in rows;
      forall id | id in OwnIds(now, companyId) ensures id in OtherTargets(rows, payload, generated, n, j) {
        OwnIsTarget(rows, companyId, payload, generated, id);
        var k :| 0 <= k < n && Target(rows, payload, generated, k) == id;
        assert Target(rows, payload, generated, if k == j then i else k) == id;
      }
      TooFew(rows, companyId, payload, generated, j);
    }
  }

  lemma ForeignStays(rows: Table, companyId: string, payload: seq<Entry>, generated: seq<int>, id: int)
    requires FreshKeys(rows, payload, generated) && id in rows && rows[id].companyId != companyId
    ensures var now := Result(rows, companyId, payload, generated); id in now && now[id].companyId != companyId
  {
    AfterKeys(rows, companyId, payload, generated, |payload|, id);
    AfterRow(rows, companyId, payload, generated, |payload|, id);
    hide After;
  }

  /**
   The replacement does what it is for exactly when every id of the payload that exists is the company's own and no
   such id is named twice; ids that do not exist may repeat, each entry then creates a row.
   */
  lemma ReplacesExactlyWhen(rows: Table, companyId: string, payload: seq<Entry>, generated: seq<int>)
    requires FreshKeys(rows, payload, generated)
    ensures var now := UpsertAll(Pruned(rows, companyId, payload), companyId, payload, generated);
      Replaced(rows, now, companyId, payload) <==> OwnIdsOnce(rows, companyId, payload)
  {
    assert payload[..|payload|] == payload && generated[..|generated|] == generated;
    assert Result(rows, companyId, payload, generated)
        == UpsertAll(Pruned(rows, companyId, payload), companyId, payload, generated);
    hide UpsertAll, Pruned, Replaced, OwnIdsOnce, FreshKeys, After;
    if OwnIdsOnce(rows, companyId, payload) {
      ReplacedWhenOwnIdsOnce(rows, companyId, payload, generated);
    } else {
      NotReplacedOtherwise(rows, companyId, payload, generated);
    }
  }
}
