/**
  The mobile-line registry: lookup by primary key, the per-subscriber line
  cap and creation.
 */
module MobileLineService {
  import opened Faults
  import opened Models

  /** Most lines one subscriber may hold. */
  const LineCountLimit: nat := 10

  /** The ids among `ks` of stored lines that belong to subscriber `sid`. */
  function LinesAmong(lines: map<int, MobileLine>, ks: set<int>, sid: int): set<int> {
    set k | k in ks && k in lines && lines[k].subscriber == sid
  }

  /** A non-empty set has an element. Under Dafny's
      `--warn-contradictory-assumptions` option the verifier does not find
      one on its own, so the loop in CountLines calls this lemma before
      choosing a key. */
  lemma SomeElement(s: set<int>) returns (x: int)
    requires s != {}
    ensures x in s
  {
    if forall y :: y !in s {
      assert false;
    }
    x :| x in s;
  }

  /** The count query behind the cap: scans the stored lines once and counts
      those whose subscriber is `sid`. */
  method CountLines(lines: map<int, MobileLine>, sid: int) returns (n: nat)
    ensures n == LineCount(lines, sid)
  {
    n := 0;
    var pending := lines.Keys;
    ghost var seen: set<int> := {};
    while pending != {}
      invariant pending !! seen
      invariant pending + seen == lines.Keys
      invariant n == |LinesAmong(lines, seen, sid)|
      decreases pending
    {
      // Only supplies a witness for the such-that below; see SomeElement.
      ghost var member := SomeElement(pending);
      var id :| id in pending;
      if lines[id].subscriber == sid {
        assert LinesAmong(lines, seen + {id}, sid) == LinesAmong(lines, seen, sid) + {id};
        n := n + 1;
      } else {
        assert LinesAmong(lines, seen + {id}, sid) == LinesAmong(lines, seen, sid);
      }
      pending := pending - {id};
      seen := seen + {id};
    }
    assert LinesAmong(lines, seen, sid) == LinesOf(lines, sid);
  }

  /** Fewer than the limit lines exactly when one more line for the
      subscriber, under a fresh id, keeps it within the limit. */
  lemma LineCapAdmitsOneMore(lines: map<int, MobileLine>, sid: int)
    ensures forall l: MobileLine :: l.subscriber == sid && l.id !in lines ==>
              (LineCount(lines, sid) < LineCountLimit <==> LineCount(lines[l.id := l], sid) <= LineCountLimit)
  {
    forall l: MobileLine | l.subscriber == sid && l.id !in lines
      ensures LineCount(lines, sid) < LineCountLimit <==> LineCount(lines[l.id := l], sid) <= LineCountLimit
    {
      LinesOfAfterInsert(lines, l, sid);
    }
  }

  /** The cap check: it admits the subscriber exactly when storing one more
      line for it, under any fresh id, keeps it within the limit. */
  function ValidLineCounts(lines: map<int, MobileLine>, sid: int): (ok: bool)
    ensures forall l: MobileLine :: l.subscriber == sid && l.id !in lines ==>
              (ok <==> LineCount(lines[l.id := l], sid) <= LineCountLimit)
  {
    LineCapAdmitsOneMore(lines, sid);
    LineCount(lines, sid) < LineCountLimit
  }

  /** Lookup by primary key; NotFound when no line has that id. */
  function GetMobileLine(st: Store, pk: int): (r: Result<MobileLine>)
    ensures r.Ok? <==> pk in st.lines
    ensures r.Ok? ==> r.value == st.lines[pk]
    ensures r.Err? ==> r.fault == NotFound(MobileLineEntity)
  {
    if pk in st.lines then Ok(st.lines[pk])
    else Err(NotFound(MobileLineEntity))
  }

  /** Creation: the line cap first, then the insert, which the primary key and
      the unique number can refuse, and which is refused as well when the
      subscriber it names is not stored. */
  function CreateMobileLine(st: Store, l: MobileLine): (r: Reply<MobileLine>)
    // the cap decides first, whatever the keys
    ensures LineCount(st.lines, l.subscriber) >= LineCountLimit ==> r.result == Err(TooManyLines)
    ensures LineCount(st.lines, l.subscriber) < LineCountLimit ==>
              (l.id in st.lines || NumberTaken(st.lines, l.number)) ==>
              r.result == Err(AlreadyExists(MobileLineEntity))
    ensures r.result == Err(UnknownSubscriber) <==>
              LineCount(st.lines, l.subscriber) < LineCountLimit && l.id !in st.lines &&
              !NumberTaken(st.lines, l.number) && l.subscriber !in st.subscribers
    ensures r.result.Ok? <==>
              LineCount(st.lines, l.subscriber) < LineCountLimit && l.id !in st.lines &&
              !NumberTaken(st.lines, l.number) && l.subscriber in st.subscribers
    // a refused create changes nothing
    ensures r.result.Err? ==> r.store == st
    // an accepted one stores exactly the input, under its id, and returns it
    ensures r.result.Ok? ==> r.result.value == l
    ensures r.result.Ok? ==> r.store.lines.Keys == st.lines.Keys + {l.id}
    ensures r.result.Ok? ==> r.store.lines[l.id] == l
    ensures r.result.Ok? ==> forall k :: k in st.lines ==> r.store.lines[k] == st.lines[k]
    ensures r.store.subscribers == st.subscribers
  {
    if !ValidLineCounts(st.lines, l.subscriber) then
      Reply(Err(TooManyLines), st)
    else if l.id in st.lines || NumberTaken(st.lines, l.number) then
      Reply(Err(AlreadyExists(MobileLineEntity)), st)
    else if l.subscriber !in st.subscribers then
      Reply(Err(UnknownSubscriber), st)
    else
      Reply(Ok(l), st.(lines := st.lines[l.id := l]))
  }

  /** A successful create raises its subscriber's line count by exactly one,
      to at most the limit, and leaves every other subscriber's count alone. */
  lemma CreateMobileLineCounts(st: Store, l: MobileLine, sid: int)
    requires CreateMobileLine(st, l).result.Ok?
    ensures sid == l.subscriber ==>
              LineCount(CreateMobileLine(st, l).store.lines, sid) == LineCount(st.lines, sid) + 1
    ensures LineCount(CreateMobileLine(st, l).store.lines, l.subscriber) <= LineCountLimit
    ensures sid != l.subscriber ==>
              LineCount(CreateMobileLine(st, l).store.lines, sid) == LineCount(st.lines, sid)
  {
    LinesOfAfterInsert(st.lines, l, sid);
    LinesOfAfterInsert(st.lines, l, l.subscriber);
  }

  /** Creation preserves the record invariants and the line cap, provided
      the input meets the declared field bounds. */
  lemma CreateMobileLinePreservesValid(st: Store, l: MobileLine)
    requires Valid(st)
    requires WithinLineCap(st, LineCountLimit)
    requires MobileLineFits(l)
    ensures Valid(CreateMobileLine(st, l).store)
    ensures WithinLineCap(CreateMobileLine(st, l).store, LineCountLimit)
  {
    var r := CreateMobileLine(st, l);
    if r.result.Ok? {
      var after := r.store;
      forall a, b | a in after.lines && b in after.lines && a != b
        ensures after.lines[a].number != after.lines[b].number
      {
        if a == l.id {
          assert b in st.lines;
        } else if b == l.id {
          assert a in st.lines;
        }
      }
      forall sid ensures LineCount(after.lines, sid) <= LineCountLimit {
        CreateMobileLineCounts(st, l, sid);
      }
    }
  }

  /** Round trip: looking up the id a successful create returned yields the
      created line. */
  lemma GetAfterCreateMobileLine(st: Store, l: MobileLine)
    requires CreateMobileLine(st, l).result.Ok?
    ensures GetMobileLine(CreateMobileLine(st, l).store, l.id) == Ok(l)
  {
  }

  /** In a valid store, a lookup never returns a line under another id. */
  lemma GetMobileLineReturnsRequestedId(st: Store, pk: int)
    requires Valid(st)
    ensures GetMobileLine(st, pk).Ok? ==> GetMobileLine(st, pk).value.id == pk
  {
  }

  /** Of two creates with the same number or the same id, at most one
      succeeds: once the first is stored, the second is refused. */
  lemma SecondCreateMobileLineFails(st: Store, l1: MobileLine, l2: MobileLine)
    requires CreateMobileLine(st, l1).result.Ok?
    requires l2.number == l1.number || l2.id == l1.id
    ensures CreateMobileLine(CreateMobileLine(st, l1).store, l2).result.Err?
  {
  }

  /** For a subscriber holding nine lines, a tenth line with fresh keys is
      accepted, and after it every further line for that subscriber is
      refused by the cap, even one that would also clash on its keys. */
  lemma TenthLineAcceptedEleventhRefused(st: Store, l: MobileLine, next: MobileLine)
    requires l.subscriber in st.subscribers
    requires LineCount(st.lines, l.subscriber) == LineCountLimit - 1
    requires l.id !in st.lines && !NumberTaken(st.lines, l.number)
    requires next.subscriber == l.subscriber
    ensures CreateMobileLine(st, l).result == Ok(l)
    ensures LineCount(CreateMobileLine(st, l).store.lines, l.subscriber) == LineCountLimit
    ensures CreateMobileLine(CreateMobileLine(st, l).store, next).result == Err(TooManyLines)
  {
    CreateMobileLineCounts(st, l, l.subscriber);
  }
}
