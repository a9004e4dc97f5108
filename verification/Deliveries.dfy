/** The rows that a delivery store keeps, and the two tables beside them (store/store.go). */
module Deliveries {

  datatype Option<+T> = None | Some(value: T)

  datatype Result<+T, +E> = Ok(value: T) | Err(error: E)

  datatype Status = Pending | InFlight | Delivered | DeadLettered | Retained

  /** A point in time; `Never` is the zero `time.Time`, or SQL's NULL. */
  datatype Time = Never | At(ns: int)

  /** One webhook delivery. `body` stands for the fields a store only carries:
      event id, URL, payload, event type and secret. */
  datatype Delivery = Delivery(
    id: string,
    subscriber: string,
    partition: int,
    body: string,
    sequence: int,
    status: Status,
    attempt: int,
    nextAttempt: Time,
    lastError: string,
    owner: string,
    generation: nat,
    claimedAt: Time,
    createdAt: int)

  /** Pending or in flight: the rows that hold back later sequences of their subscriber. */
  predicate Unfinished(d: Delivery) {
    d.status == Pending || d.status == InFlight
  }

  /** Not yet delivered or dead-lettered. */
  predicate Waiting(d: Delivery) {
    Unfinished(d) || d.status == Retained
  }

  /** A claim's identity is cleared whenever its row leaves the in-flight state. */
  function Unstamped(d: Delivery): Delivery {
    d.(owner := "", generation := 0, claimedAt := Never)
  }

  predicate Due(d: Delivery, now: int) {
    d.nextAttempt.Never? || d.nextAttempt.ns <= now
  }

  /** Per-subscriber suspension and the gap that retention has left so far. */
  datatype Meta = Meta(suspended: bool, gap: bool, dropped: nat)

  const RUNNING := Meta(false, false, 0)

  /** The whole store as a value. */
  datatype Table = Table(rows: map<string, Delivery>, seqs: map<string, nat>, subs: map<string, Meta>) {

    /** Sequences handed out to `s` so far. */
    function Last(s: string): nat {
      if s in seqs then seqs[s] else 0
    }

    function MetaOf(s: string): Meta {
      if s in subs then subs[s] else RUNNING
    }
  }

  const EMPTY := Table(map[], map[], map[])

  datatype Error =
    | MissingID | MissingSubscriber | DuplicateID
    | NoOwner | BadOwner | ZeroGeneration | NoMetadata
    | UnknownDelivery | NotInFlight | StaleClaim
    | Invalid | Conflict | Missing | NotDistributed | Overflow
}
