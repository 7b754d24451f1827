/**
 * Shared frontend types: the conversation log entry, the call status and the
 * notification record the hooks hand to the toast side channel.
 */
module ChatTypes {

  /** Who authored a chat message. */
  datatype Sender = User | Agent

  /** One entry of the conversation log. `id` stands for the uuid minted when the
      message is created and `timestamp` for the creation instant (model clock, ms). */
  datatype Message = Message(id: nat, text: string, sender: Sender, timestamp: nat)

  /** The five call phases. */
  datatype CallStatus = Idle | Connecting | Active | Disconnected | Error

  /** A transient user-visible notice: title, description and whether it uses the
      destructive variant. */
  datatype Toast = Toast(title: string, description: string, destructive: bool)

  /** Number of messages in `ms` written by `who`. */
  function CountBy(ms: seq<Message>, who: Sender): nat
  {
    if |ms| == 0 then 0
    else (if ms[0].sender == who then 1 else 0) + CountBy(ms[1..], who)
  }

  lemma {:induction false} CountByConcat(a: seq<Message>, b: seq<Message>, who: Sender)
    ensures CountBy(a + b, who) == CountBy(a, who) + CountBy(b, who)
  {
    if |a| == 0 {
      assert a + b == b;
    } else {
      assert (a + b)[1..] == a[1..] + b;
      CountByConcat(a[1..], b, who);
    }
  }
}
