/** The list transforms of the directory component (App.tsx): prepending a
    new record, removing by id, and the category view. */
module Directory {
  import opened Types
  import opened Lists

  /** The ids in use by a list of records. */
  function Ids(records: seq<Business>): set<int> {
    set b | b in records :: b.id
  }

  /** No two records share an id. */
  predicate UniqueIds(records: seq<Business>) {
    forall i, j :: 0 <= i < j < |records| ==> records[i].id != records[j].id
  }

  /** The largest id in use (0 for an empty list); every larger id is free. */
  function MaxId(records: seq<Business>): (m: int)
    ensures forall b :: b in records ==> b.id <= m
    ensures records != [] ==> m in Ids(records)
    ensures records == [] ==> m == 0
  {
    if records == [] then 0
    else
      var rest := MaxId(records[1..]);
      assert forall b :: b in records ==> b == records[0] || b in records[1..];
      if records == [records[0]] || records[0].id > rest then records[0].id else rest
  }

  lemma UniqueIdsCons(b: Business, records: seq<Business>)
    ensures UniqueIds([b] + records) <==> b.id !in Ids(records) && UniqueIds(records)
  {
    var s := [b] + records;
    if UniqueIds(s) {
      forall i, j | 0 <= i < j < |records|
        ensures records[i].id != records[j].id
      {
        assert s[i + 1] == records[i] && s[j + 1] == records[j];
      }
      forall x | x in records
        ensures x.id != b.id
      {
        var k :| 0 <= k < |records| && records[k] == x;
        assert s[0] == b && s[k + 1] == x;
        assert s[0].id != s[k + 1].id;
      }
    }
    if b.id !in Ids(records) && UniqueIds(records) {
      forall i, j | 0 <= i < j < |s|
        ensures s[i].id != s[j].id
      {
        if i == 0 {
          assert s[j] in records;
        } else {
          assert s[i] == records[i - 1] && s[j] == records[j - 1];
        }
      }
    }
  }

  /** Dropping records never creates a duplicate id. */
  lemma {:induction false} SubsequenceKeepsUniqueIds(r: seq<Business>, s: seq<Business>)
    requires IsSubsequence(r, s) && UniqueIds(s)
    ensures UniqueIds(r)
    decreases |s|
  {
    if r != [] {
      assert s == [s[0]] + s[1..];
      UniqueIdsCons(s[0], s[1..]);
      if r[0] == s[0] && IsSubsequence(r[1..], s[1..]) {
        SubsequenceKeepsUniqueIds(r[1..], s[1..]);
        SubsequenceCount(r[1..], s[1..]);
        assert r == [r[0]] + r[1..];
        forall x | x in r[1..]
          ensures x.id != r[0].id
        {
          assert x in multiset(r[1..]);
          assert x in s[1..];
        }
        UniqueIdsCons(r[0], r[1..]);
      } else {
        SubsequenceKeepsUniqueIds(r, s[1..]);
      }
    }
  }

  /** `[b, ...records]`: the new record first, the old list after it. */
  function Prepend(b: Business, records: seq<Business>): (r: seq<Business>)
    ensures |r| == |records| + 1 && r[0] == b && r[1..] == records
    ensures Ids(r) == Ids(records) + {b.id}
    ensures UniqueIds(r) <==> UniqueIds(records) && b.id !in Ids(records)
  {
    UniqueIdsCons(b, records);
    var r := [b] + records;
    assert forall x :: x in r <==> x == b || x in records;
    r
  }

  /** The test `business.id !== id`. */
  function HasOtherId(id: int): Business -> bool {
    (b: Business) => b.id != id
  }

  /** `records.filter(business => business.id !== id)`. */
  function RemoveById(records: seq<Business>, id: int): (r: seq<Business>)
    ensures forall b :: b in r <==> b in records && b.id != id
    ensures Ids(r) == Ids(records) - {id}
    ensures IsSubsequence(r, records)
    ensures forall b :: multiset(r)[b] == if b.id != id then multiset(records)[b] else 0
    ensures UniqueIds(records) ==> UniqueIds(r)
  {
    KeepIsSubsequence(records, HasOtherId(id));
    forall b
      ensures multiset(Keep(records, HasOtherId(id)))[b] == if b.id != id then multiset(records)[b] else 0
    {
      KeepCount(records, HasOtherId(id), b);
    }
    var r := Keep(records, HasOtherId(id));
    assert forall b :: b in r <==> b in records && b.id != id by {
      forall b
        ensures b in r <==> b in records && b.id != id
      {
        if b in r {
          var i :| 0 <= i < |r| && r[i] == b;
        }
        if b in records && b.id != id {
          var i :| 0 <= i < |records| && records[i] == b;
        }
      }
    }
    assert UniqueIds(records) ==> UniqueIds(r) by {
      if UniqueIds(records) {
        SubsequenceKeepsUniqueIds(r, records);
      }
    }
    r
  }

  /** Deleting an id that is not in use changes nothing. */
  lemma RemoveAbsent(records: seq<Business>, id: int)
    requires id !in Ids(records)
    ensures RemoveById(records, id) == records
  {
    KeepAll(records, HasOtherId(id));
  }

  /** Deleting the same id twice is deleting it once. */
  lemma RemoveIdempotent(records: seq<Business>, id: int)
    ensures RemoveById(RemoveById(records, id), id) == RemoveById(records, id)
  {
    KeepIdempotent(records, HasOtherId(id));
  }

  /** When ids are unique, deleting an id in use removes exactly one record. */
  lemma {:induction false} RemovePresentDropsOne(records: seq<Business>, id: int)
    requires UniqueIds(records) && id in Ids(records)
    ensures |RemoveById(records, id)| == |records| - 1
  {
    var b, t := records[0], records[1..];
    assert records == [b] + t;
    UniqueIdsCons(b, t);
    if b.id == id {
      RemoveAbsent(t, id);
    } else {
      assert id in Ids(t);
      RemovePresentDropsOne(t, id);
    }
  }

  /** Deleting the record just added with a fresh id restores the list. */
  lemma AddThenRemove(b: Business, records: seq<Business>)
    requires b.id !in Ids(records)
    ensures RemoveById(Prepend(b, records), b.id) == records
  {
    assert ([b] + records)[1..] == records;
    RemoveAbsent(records, b.id);
  }

  /** Whether a record passes a filter (`'all'` passes everything). */
  predicate Matches(f: Filter, b: Business) {
    f.All? || b.category == f.category
  }

  function Shows(f: Filter): Business -> bool {
    (b: Business) => Matches(f, b)
  }

  /** The `filteredBusinesses` computation: the whole list for `'all'`,
      otherwise the records of the chosen category. */
  function Visible(records: seq<Business>, f: Filter): (r: seq<Business>)
    ensures forall b :: b in r <==> b in records && Matches(f, b)
    ensures IsSubsequence(r, records)
    ensures f.All? ==> r == records
  {
    if f.All? then
      SubsequenceReflexive(records);
      records
    else
      KeepIsSubsequence(records, Shows(f));
      var r := Keep(records, Shows(f));
      assert forall b :: b in r <==> b in records && Matches(f, b) by {
        forall b
          ensures b in r <==> b in records && Matches(f, b)
        {
          if b in r {
            var i :| 0 <= i < |r| && r[i] == b;
          }
          if b in records && Matches(f, b) {
            var i :| 0 <= i < |records| && records[i] == b;
          }
        }
      }
      r
  }

  /** Both branches of the view are the one filter by `Matches`. */
  lemma VisibleIsKeep(records: seq<Business>, f: Filter)
    ensures Visible(records, f) == Keep(records, Shows(f))
  {
    if f.All? {
      KeepAll(records, Shows(f));
    }
  }

  /** The view is exactly the subsequence of the records that holds only
      matching records and every occurrence of each matching record. */
  lemma VisibleCharacterised(records: seq<Business>, f: Filter, r: seq<Business>)
    ensures r == Visible(records, f) <==>
      && IsSubsequence(r, records)
      && (forall b :: b in r ==> Matches(f, b))
      && (forall b :: Matches(f, b) ==> multiset(r)[b] == multiset(records)[b])
  {
    VisibleIsKeep(records, f);
    if r == Visible(records, f) {
      forall b | Matches(f, b)
        ensures multiset(r)[b] == multiset(records)[b]
      {
        KeepCount(records, Shows(f), b);
      }
    }
    if && IsSubsequence(r, records)
       && (forall b :: b in r ==> Matches(f, b))
       && (forall b :: Matches(f, b) ==> multiset(r)[b] == multiset(records)[b])
    {
      KeepUnique(r, records, Shows(f));
    }
  }

  /** Adding a record shows it first in every view it matches, and
      leaves every view it does not match unchanged. */
  lemma VisibleAfterAdd(b: Business, records: seq<Business>, f: Filter)
    ensures Visible(Prepend(b, records), f) ==
      if Matches(f, b) then [b] + Visible(records, f) else Visible(records, f)
  {
    VisibleIsKeep(records, f);
    VisibleIsKeep(Prepend(b, records), f);
    assert ([b] + records)[1..] == records;
  }

  /** Deleting by id and viewing by category commute. */
  lemma VisibleAfterRemove(records: seq<Business>, id: int, f: Filter)
    ensures Visible(RemoveById(records, id), f) == RemoveById(Visible(records, f), id)
  {
    VisibleIsKeep(records, f);
    VisibleIsKeep(RemoveById(records, id), f);
    KeepCommute(records, HasOtherId(id), Shows(f));
  }

  /** `handleAddBusiness` as written: the id is the clock reading `now`
      (`Date.now()`), with no check against the ids in use. */
  function AddStamped(records: seq<Business>, d: NewBusiness, now: int): (r: seq<Business>)
    ensures |r| == |records| + 1 && r[0] == WithId(now, d) && r[1..] == records
    ensures UniqueIds(r) <==> UniqueIds(records) && now !in Ids(records)
  {
    Prepend(WithId(now, d), records)
  }

  /** Two additions within one clock tick share an id, and confirming the
      deletion of the newer one then removes both. */
  lemma SameTickAddsCollide(records: seq<Business>, d1: NewBusiness, d2: NewBusiness, now: int)
    requires now !in Ids(records)
    ensures var s := AddStamped(AddStamped(records, d1, now), d2, now);
      && !UniqueIds(s)
      && |s| == |records| + 2
      && RemoveById(s, now) == records
  {
    var s1 := AddStamped(records, d1, now);
    var s := AddStamped(s1, d2, now);
    assert s[0].id == s[1].id;
    var p := HasOtherId(now);
    assert Keep(s, p) == Keep(s1, p) by {
      assert !p(s[0]) && s[1..] == s1;
    }
    assert Keep(s1, p) == Keep(records, p) by {
      assert !p(s1[0]) && s1[1..] == records;
    }
    RemoveAbsent(records, now);
  }
}
