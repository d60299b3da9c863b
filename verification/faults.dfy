/**
  The fault taxonomy shared by the two registries, and the result type every
  service operation returns instead of raising.
 */
module Faults {

  /** The entity a NotFound or AlreadyExists fault names. */
  datatype Entity = SubscriberEntity | MobileLineEntity

  /** A typed fault crossing the service boundary.
      - NotFound: a lookup by primary key found nothing;
      - AlreadyExists: the insert clashed with a primary or unique key;
      - Underage: the subscriber has not reached the legal age;
      - TooManyLines: the subscriber already holds the maximum number of lines;
      - UnknownSubscriber: a new line names a subscriber that is not stored.
        The service code never checks this itself; the model names it so that
        the foreign key of a stored line always holds. */
  datatype Fault =
    | NotFound(entity: Entity)
    | AlreadyExists(entity: Entity)
    | Underage
    | TooManyLines
    | UnknownSubscriber

  /** Either the record an operation produced or the fault it reported. */
  datatype Result<+T> = Ok(value: T) | Err(fault: Fault)
}
