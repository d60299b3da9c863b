/**
  The subscriber registry: lookup by primary key, the legal-age rule and
  creation. The clock is not read: `today` is a parameter.
 */
module SubscriberService {
  import opened Dates
  import opened Faults
  import opened Models

  /** Minimum age, in whole years, for registration. */
  const LegalAge: int := 18

  /** Whole years between `birthdate` and `today`: the year difference, less
      one when this year's birthday is still ahead. The result is the number
      of anniversaries of `birthdate` that have fallen on or before `today`. */
  function Age(birthdate: Date, today: Date): (age: int)
    ensures OnOrBefore(Anniversary(birthdate, age), today)
    ensures DateBefore(today, Anniversary(birthdate, age + 1))
  {
    today.year - birthdate.year - (if MonthDayBefore(today, birthdate) then 1 else 0)
  }

  /** Whether someone born on `birthdate` has reached the legal age by
      `today`: exactly when their eighteenth birthday is not later than `today`. */
  function IsLegalAge(birthdate: Date, today: Date): (legal: bool)
    ensures legal <==> OnOrBefore(Anniversary(birthdate, LegalAge), today)
  {
    Age(birthdate, today) >= LegalAge
  }

  /** Boundary: someone whose eighteenth birthday is `today` is of legal age. */
  lemma EighteenthBirthdayIsLegal(today: Date)
    ensures IsLegalAge(Date(today.year - LegalAge, today.month, today.day), today)
  {
  }

  /** Boundary: someone who turns eighteen later this year is not yet of legal age. */
  lemma BeforeEighteenthBirthdayIsNotLegal(birthdate: Date, today: Date)
    requires birthdate.year == today.year - LegalAge
    requires MonthDayBefore(today, birthdate)
    ensures !IsLegalAge(birthdate, today)
  {
  }

  /** Anyone born no later than someone of legal age is of legal age too. */
  lemma LegalAgeMonotoneInBirthdate(b1: Date, b2: Date, today: Date)
    requires OnOrBefore(b1, b2)
    requires IsLegalAge(b2, today)
    ensures IsLegalAge(b1, today)
  {
  }

  /** Someone of legal age stays of legal age on every later day. */
  lemma LegalAgeMonotoneInToday(birthdate: Date, t1: Date, t2: Date)
    requires OnOrBefore(t1, t2)
    requires IsLegalAge(birthdate, t1)
    ensures IsLegalAge(birthdate, t2)
  {
  }

  /** Lookup by primary key; NotFound when no subscriber has that id. */
  function GetSubscriber(st: Store, pk: int): (r: Result<Subscriber>)
    ensures r.Ok? <==> pk in st.subscribers
    ensures r.Ok? ==> r.value == st.subscribers[pk]
    ensures r.Err? ==> r.fault == NotFound(SubscriberEntity)
  {
    if pk in st.subscribers then Ok(st.subscribers[pk])
    else Err(NotFound(SubscriberEntity))
  }

  /** Creation: the legal-age rule first, then the insert, which the primary
      key and the unique national code can refuse. */
  function CreateSubscriber(st: Store, s: Subscriber, today: Date): (r: Reply<Subscriber>)
    // the age rule decides first, whatever the keys
    ensures !IsLegalAge(s.birthdate, today) ==> r.result == Err(Underage)
    ensures IsLegalAge(s.birthdate, today) ==>
              (s.id in st.subscribers || NationalCodeTaken(st.subscribers, s.nationalCode)) ==>
              r.result == Err(AlreadyExists(SubscriberEntity))
    ensures r.result.Ok? <==>
              IsLegalAge(s.birthdate, today) && s.id !in st.subscribers && !NationalCodeTaken(st.subscribers, s.nationalCode)
    // a refused create changes nothing
    ensures r.result.Err? ==> r.store == st
    // an accepted one stores exactly the input, under its id, and returns it
    ensures r.result.Ok? ==> r.result.value == s
    ensures r.result.Ok? ==> r.store.subscribers.Keys == st.subscribers.Keys + {s.id}
    ensures r.result.Ok? ==> r.store.subscribers[s.id] == s
    ensures r.result.Ok? ==> forall k :: k in st.subscribers ==> r.store.subscribers[k] == st.subscribers[k]
    ensures r.store.lines == st.lines
  {
    if !IsLegalAge(s.birthdate, today) then
      Reply(Err(Underage), st)
    else if s.id in st.subscribers || NationalCodeTaken(st.subscribers, s.nationalCode) then
      Reply(Err(AlreadyExists(SubscriberEntity)), st)
    else
      Reply(Ok(s), st.(subscribers := st.subscribers[s.id := s]))
  }

  /** Creation preserves the record invariants, provided the input meets the
      declared field bounds. */
  lemma CreateSubscriberPreservesValid(st: Store, s: Subscriber, today: Date)
    requires Valid(st)
    requires SubscriberFits(s)
    ensures Valid(CreateSubscriber(st, s, today).store)
  {
  }

  /** Round trip: looking up the id a successful create returned yields the
      created record. */
  lemma GetAfterCreateSubscriber(st: Store, s: Subscriber, today: Date)
    requires CreateSubscriber(st, s, today).result.Ok?
    ensures GetSubscriber(CreateSubscriber(st, s, today).store, s.id) == Ok(s)
  {
  }

  /** In a valid store, a lookup never returns a record under another id. */
  lemma GetSubscriberReturnsRequestedId(st: Store, pk: int)
    requires Valid(st)
    ensures GetSubscriber(st, pk).Ok? ==> GetSubscriber(st, pk).value.id == pk
  {
  }

  /** Of two creates with the same national code or the same id, at most one
      succeeds: once the first is stored, the second is refused. */
  lemma SecondCreateSubscriberFails(st: Store, s1: Subscriber, s2: Subscriber, t1: Date, t2: Date)
    requires CreateSubscriber(st, s1, t1).result.Ok?
    requires s2.nationalCode == s1.nationalCode || s2.id == s1.id
    ensures CreateSubscriber(CreateSubscriber(st, s1, t1).store, s2, t2).result.Err?
  {
  }
}
