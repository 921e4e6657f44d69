/** Value types shared by every module of the model. */
module Types {
  datatype Option<T> = None | Some(value: T)

  /** A raw byte; payloads are opaque byte strings the harness never interprets. */
  newtype Byte = x: int | 0 <= x < 256

  type Payload = seq<Byte>

  /** A NATS / NATS-Streaming subject name. */
  type Topic = string

  /** Identifier handed out by the broker: connections, streaming sessions, subscriptions. */
  type Id = nat

  /** Clamp a duration in ticks at zero (sleeping a negative time returns at once). */
  function Ticks(d: int): (n: nat)
    ensures d >= 0 ==> n == d
    ensures d < 0 ==> n == 0
  {
    if d > 0 then d else 0
  }
}
