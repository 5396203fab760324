/**
 * The pieces of the .NET and RabbitMQ runtime that the order service leans on,
 * reduced to what its logic observes: exceptions (told apart only by type and
 * message), a message broker that records queue declarations and published
 * messages, the one-shot `TaskCompletionSource`, and the decimal formatting of
 * integers used by string interpolation.
 */
module Platform {
  import opened Wrappers

  /** The exceptions the service raises or catches. A `catch (TimeoutException)`
      tells the first kind apart; every other kind reaches `catch (Exception)`.
      A `TaskCanceledException` escaping an async method cancels its task
      instead of faulting it (`HttpClient` throws one when a request times out). */
  datatype Exception =
    | TimeoutException(message: string)
    | TaskCanceledException(message: string)
    | InvalidOperationException(message: string)
    | ArgumentNullException(message: string)
    | OtherException(message: string)

  /** The message of the `TaskCanceledException` that awaiting a canceled task throws. */
  const CanceledMessage := "A task was canceled."

  /** The message `SetResult` throws on a source whose task has already completed. */
  const AlreadyCompletedMessage := "An attempt was made to transition a task to a final state when it had already completed."

  /** The arguments of `QueueDeclare` that the service passes (its `arguments` are always null). */
  datatype QueueDeclaration = QueueDeclaration(queue: string, durable: bool, exclusive: bool, autoDelete: bool)

  /** A `BasicPublish` call: exchange, routing key and the encoded body. */
  datatype Message = Message(exchange: string, routingKey: string, body: seq<int>)

  /** The RabbitMQ server as seen through the service's connection: the queues
      declared on it and the messages published to it, in order. */
  class Broker {
    var declared: seq<QueueDeclaration>
    var published: seq<Message>

    constructor ()
      ensures declared == [] && published == []
    {
      declared, published := [], [];
    }

    /** `QueueDeclare`: records the declaration, publishes nothing. */
    method Declare(d: QueueDeclaration)
      modifies this
      ensures declared == old(declared) + [d] && published == old(published)
    {
      declared := declared + [d];
    }

    /** `BasicPublish`: appends one message. */
    method Publish(m: Message)
      modifies this
      ensures published == old(published) + [m] && declared == old(declared)
    {
      published := published + [m];
    }
  }

  /** The state of a `TaskCompletionSource`'s task. */
  datatype TaskState<T> = Pending | Completed(result: T)

  /** A one-shot completion slot: its task completes at most once. */
  class TaskCompletionSource<T> {
    var state: TaskState<T>

    constructor ()
      ensures state == Pending
    {
      state := Pending;
    }

    /** Completes the task, or throws `InvalidOperationException` when it has
        already completed, leaving the first result in place. */
    method SetResult(v: T) returns (thrown: Option<Exception>)
      modifies this
      ensures old(state).Pending? ==> state == Completed(v) && thrown == None
      ensures old(state).Completed? ==>
                state == old(state) && thrown == Some(InvalidOperationException(AlreadyCompletedMessage))
    {
      if state.Pending? {
        state := Completed(v);
        thrown := None;
      } else {
        thrown := Some(InvalidOperationException(AlreadyCompletedMessage));
      }
    }
  }

  /** How an awaited call ends: with its value, or with the exception it throws. */
  datatype Outcome<T> = Returned(value: T) | Threw(exception: Exception)

  predicate IsDigit(c: char) { '0' <= c <= '9' }

  function DigitValue(c: char): nat
    requires IsDigit(c)
  {
    c as int - '0' as int
  }

  function DigitChar(d: nat): (c: char)
    requires d < 10
    ensures IsDigit(c) && DigitValue(c) == d
  {
    "0123456789"[d]
  }

  /** Decimal digits of `n`, most significant first, without leading zeros. */
  function NatToString(n: nat): (s: string)
    ensures |s| >= 1 && (forall i :: 0 <= i < |s| ==> IsDigit(s[i]))
    ensures |s| > 1 ==> s[0] != '0'
  {
    if n < 10 then [DigitChar(n)] else NatToString(n / 10) + [DigitChar(n % 10)]
  }

  /** The value of a string of decimal digits. */
  function DigitsValue(s: string): nat
    requires forall i :: 0 <= i < |s| ==> IsDigit(s[i])
  {
    if s == [] then 0 else DigitsValue(s[..|s| - 1]) * 10 + DigitValue(s[|s| - 1])
  }

  /** Reading the digits back gives the number: formatting loses nothing. */
  lemma {:induction false} NatToStringRoundTrip(n: nat)
    ensures DigitsValue(NatToString(n)) == n
  {
    var s := NatToString(n);
    if n >= 10 {
      NatToStringRoundTrip(n / 10);
      assert s[..|s| - 1] == NatToString(n / 10);
    } else {
      assert s[..|s| - 1] == [];
    }
  }

  /** `int.ToString()` in the invariant culture: a leading '-' for negatives. */
  function IntToString(i: int): (s: string)
    ensures |s| >= 1 && (s[0] == '-' <==> i < 0)
  {
    if i < 0 then "-" + NatToString(-i) else NatToString(i)
  }

  /** Different numbers print differently, so a message that embeds an id names that id. */
  lemma NatToStringInjective(m: nat, n: nat)
    requires NatToString(m) == NatToString(n)
    ensures m == n
  {
    NatToStringRoundTrip(m);
    NatToStringRoundTrip(n);
  }

  lemma IntToStringInjective(a: int, b: int)
    requires IntToString(a) == IntToString(b)
    ensures a == b
  {
    var s := IntToString(a);
    if a < 0 {
      assert b < 0;
      NegativeDigits(a);
      NegativeDigits(b);
      NatToStringInjective(-a, -b);
    } else {
      assert b >= 0;
      NatToStringInjective(a, b);
    }
  }

  lemma NegativeDigits(a: int)
    requires a < 0
    ensures IntToString(a)[1..] == NatToString(-a)
  {
    var t := NatToString(-a);
    assert ("-" + t)[1..] == t;
  }
}
