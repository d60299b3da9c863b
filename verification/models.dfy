/**
  The two stored record types, their declared field constraints, and the
  store that holds them: two finite maps keyed by primary key.
 */
module Models {
  import opened Dates
  import opened Faults

  /** Declared `max_length` of the character fields. */
  const NameMaxLength: nat := 200
  const NationalCodeMaxLength: nat := 10
  const ShenasnameIdMaxLength: nat := 10
  const NumberMaxLength: nat := 11

  /** A subscriber row. `id` is the externally supplied primary key. */
  datatype Subscriber = Subscriber(
    id: int,
    firstName: string,
    lastName: string,
    nationalCode: string,
    fatherName: string,
    shenasnameId: string,
    birthdate: Date,
    address: string)

  /** A mobile line row; `subscriber` is the foreign key (the subscriber's id). */
  datatype MobileLine = MobileLine(
    id: int,
    name: string,
    number: string,
    subscriber: int)

  /** The declared length bounds of a subscriber row hold, and its birthdate
      is a date a Python `date` can hold. */
  predicate SubscriberFits(s: Subscriber) {
    && |s.firstName| <= NameMaxLength
    && |s.lastName| <= NameMaxLength
    && |s.nationalCode| <= NationalCodeMaxLength
    && |s.fatherName| <= NameMaxLength
    && |s.shenasnameId| <= ShenasnameIdMaxLength
    && ValidDate(s.birthdate)
  }

  /** The declared length bounds of a mobile line row hold. */
  predicate MobileLineFits(l: MobileLine) {
    && |l.name| <= NameMaxLength
    && |l.number| <= NumberMaxLength
  }

  /** The persisted state: every subscriber and every line, by primary key. */
  datatype Store = Store(subscribers: map<int, Subscriber>, lines: map<int, MobileLine>)

  /** What a create operation hands back: its result and the store after it. */
  datatype Reply<+T> = Reply(result: Result<T>, store: Store)

  /** The empty store a fresh database starts from. */
  const EmptyStore: Store := Store(map[], map[])

  /** Some stored subscriber already uses this national code. */
  predicate NationalCodeTaken(subscribers: map<int, Subscriber>, code: string) {
    exists k :: k in subscribers && subscribers[k].nationalCode == code
  }

  /** Some stored line already uses this number. */
  predicate NumberTaken(lines: map<int, MobileLine>, number: string) {
    exists k :: k in lines && lines[k].number == number
  }

  /** The ids of the stored lines that belong to subscriber `sid`. */
  function LinesOf(lines: map<int, MobileLine>, sid: int): set<int> {
    set k | k in lines && lines[k].subscriber == sid
  }

  /** How many stored lines belong to subscriber `sid`. */
  function LineCount(lines: map<int, MobileLine>, sid: int): nat {
    |LinesOf(lines, sid)|
  }

  /** Primary key: each subscriber is stored under its own id. */
  ghost predicate SubscribersKeyedById(st: Store) {
    forall k :: k in st.subscribers ==> st.subscribers[k].id == k
  }

  /** Business key: no two subscribers share a national code. */
  ghost predicate NationalCodesUnique(st: Store) {
    forall a, b :: a in st.subscribers && b in st.subscribers && a != b ==>
      st.subscribers[a].nationalCode != st.subscribers[b].nationalCode
  }

  ghost predicate SubscribersFit(st: Store) {
    forall k :: k in st.subscribers ==> SubscriberFits(st.subscribers[k])
  }

  /** Primary key: each line is stored under its own id. */
  ghost predicate LinesKeyedById(st: Store) {
    forall k :: k in st.lines ==> st.lines[k].id == k
  }

  /** Business key: no two lines share a number. */
  ghost predicate NumbersUnique(st: Store) {
    forall a, b :: a in st.lines && b in st.lines && a != b ==>
      st.lines[a].number != st.lines[b].number
  }

  ghost predicate LinesFit(st: Store) {
    forall k :: k in st.lines ==> MobileLineFits(st.lines[k])
  }

  /** Foreign key: every line belongs to a stored subscriber. */
  ghost predicate LinesReferenceSubscribers(st: Store) {
    forall k :: k in st.lines ==> st.lines[k].subscriber in st.subscribers
  }

  /** Every subscriber holds at most `limit` lines. */
  ghost predicate WithinLineCap(st: Store, limit: nat) {
    forall sid :: LineCount(st.lines, sid) <= limit
  }

  /** The record invariants the model declarations impose on the store:
      primary keys, unique business keys, declared bounds, foreign key.
      A consequence of the foreign key: a subscriber that is not stored owns
      no line. */
  ghost function Valid(st: Store): (ok: bool)
    ensures ok ==> forall sid :: sid !in st.subscribers ==> LineCount(st.lines, sid) == 0
  {
    if && SubscribersKeyedById(st)
       && NationalCodesUnique(st)
       && SubscribersFit(st)
       && LinesKeyedById(st)
       && NumbersUnique(st)
       && LinesFit(st)
       && LinesReferenceSubscribers(st)
    then
      UnstoredSubscribersOwnNoLines(st);
      true
    else
      false
  }

  /** Under the foreign key, only stored subscribers own lines. */
  lemma UnstoredSubscribersOwnNoLines(st: Store)
    requires LinesReferenceSubscribers(st)
    ensures forall sid :: sid !in st.subscribers ==> LineCount(st.lines, sid) == 0
  {
    forall sid | sid !in st.subscribers
      ensures LineCount(st.lines, sid) == 0
    {
      forall k ensures k !in LinesOf(st.lines, sid) {
        if k in st.lines {
          assert st.lines[k].subscriber in st.subscribers;
        }
      }
      assert LinesOf(st.lines, sid) == {};
    }
  }

  /** Adding a line under a fresh id adds that id to its subscriber's lines
      and leaves every other subscriber's lines as they were. */
  lemma LinesOfAfterInsert(lines: map<int, MobileLine>, l: MobileLine, sid: int)
    requires l.id !in lines
    ensures sid == l.subscriber ==> LinesOf(lines[l.id := l], sid) == LinesOf(lines, sid) + {l.id}
    ensures sid != l.subscriber ==> LinesOf(lines[l.id := l], sid) == LinesOf(lines, sid)
    ensures sid == l.subscriber ==> LineCount(lines[l.id := l], sid) == LineCount(lines, sid) + 1
    ensures sid != l.subscriber ==> LineCount(lines[l.id := l], sid) == LineCount(lines, sid)
  {
  }

  /** The empty store satisfies every record invariant and holds no line. */
  lemma EmptyStoreIsValid()
    ensures Valid(EmptyStore)
    ensures WithinLineCap(EmptyStore, 0)
  {
  }
}
