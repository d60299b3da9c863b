/**
  A registration walk-through built from the test fixtures: the fixture
  subscriber, a duplicate of its national code (a step no test takes), and
  the fixture line for that subscriber.
 */
module Scenario {
  import opened Dates
  import opened Faults
  import opened Models
  import opened SubscriberService
  import opened MobileLineService

  const FirstSubscriber: Subscriber :=
    Subscriber(1, "mahdi", "akhondi", "0123456789", "dad", "0123456789", Date(1990, 6, 16), "tehran")

  /** A different person who reuses the first subscriber's national code. */
  const SameNationalCode: Subscriber :=
    Subscriber(2, "ali", "ahmadi", "0123456789", "father", "4567891230", Date(1990, 5, 10), "tehran")

  const FirstLine: MobileLine := MobileLine(1, "first", "051556", 1)

  /** On any day from the first subscriber's eighteenth birthday on, starting
      from an empty store: the subscriber is created and can be looked up,
      the duplicate national code is refused, the first line is created and
      can be looked up, and the resulting store keeps every invariant. */
  lemma RegistrationWalkThrough(today: Date)
    requires OnOrBefore(Date(2008, 6, 16), today)
    ensures CreateSubscriber(EmptyStore, FirstSubscriber, today).result == Ok(FirstSubscriber)
    ensures GetSubscriber(CreateSubscriber(EmptyStore, FirstSubscriber, today).store, 1) == Ok(FirstSubscriber)
    ensures CreateSubscriber(CreateSubscriber(EmptyStore, FirstSubscriber, today).store, SameNationalCode, today).result
              == Err(AlreadyExists(SubscriberEntity))
    ensures CreateMobileLine(CreateSubscriber(EmptyStore, FirstSubscriber, today).store, FirstLine).result == Ok(FirstLine)
    ensures GetMobileLine(CreateMobileLine(CreateSubscriber(EmptyStore, FirstSubscriber, today).store, FirstLine).store, 1)
              == Ok(FirstLine)
    ensures Valid(CreateMobileLine(CreateSubscriber(EmptyStore, FirstSubscriber, today).store, FirstLine).store)
  {
  }
}
