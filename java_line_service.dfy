/**
 * `LineService`: the customer notification sent when an order changes status. Sending is
 * a stub that only logs, so the model stops at the push that would be sent.
 */
module LineService {
  import opened Wrappers
  import opened OrderKinds

  /** The fixed LINE user every push goes to until orders carry one. */
  const MockLineUserId: string := "U1234567890abcdef"

  datatype Push = Push(lineUserId: string, message: string)

  /** The message for a status; PENDING and CANCELLED have none. */
  function StatusMessage(status: OrderStatus): (m: Option<string>)
    ensures m.Some? <==> status == Preparing || status == Served || status == Completed
  {
    match status
    case Preparing => Some("🍕 您的餐點正在製作中！")
    case Served => Some("🛎️ 餐點已準備好，請至櫃檯取餐！")
    case Completed => Some("✨ 感謝您的光臨，祝您有美好的一天！")
    case _ => None
  }

  /**
   * `notifyOrderStatusChange`: a push to the mock user exactly when the status has a
   * message, carrying that message.
   */
  function NotifyOrderStatusChange(status: OrderStatus): (push: Option<Push>)
    ensures push.Some? <==> status in {Preparing, Served, Completed}
    ensures push.Some? ==> push.value.lineUserId == MockLineUserId && Some(push.value.message) == StatusMessage(status)
  {
    match StatusMessage(status)
    case Some(m) => Some(Push(MockLineUserId, m))
    case None => None
  }

  /** The three notifying statuses send three different messages. */
  lemma MessagesDistinct(a: OrderStatus, b: OrderStatus)
    requires StatusMessage(a).Some? && StatusMessage(b).Some?
    ensures StatusMessage(a) == StatusMessage(b) <==> a == b
  {
    assert "🍕 您的餐點正在製作中！"[0] != "🛎️ 餐點已準備好，請至櫃檯取餐！"[0];
    assert "🍕 您的餐點正在製作中！"[0] != "✨ 感謝您的光臨，祝您有美好的一天！"[0];
    assert "🛎️ 餐點已準備好，請至櫃檯取餐！"[0] != "✨ 感謝您的光臨，祝您有美好的一天！"[0];
  }
}
