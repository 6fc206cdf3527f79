/** `src/utils/decorators.py`: the three handler decorators as functions
    from the wrapped handler's outcome to the outcome of the decorated call.
    A handler is represented by how it ends; a Telegram reply by its text,
    and a failing reply by the exception it raises. */
module Decorators {
  import opened Wrappers

  /** An `Exception`, or a `BaseException` that is not one (cancellation). */
  datatype Exc = Error | Cancelled

  /** How a coroutine ends. */
  datatype Outcome<T> = Returned(value: T) | Raised(exc: Exc)

  /** What a decorated call did: whether the wrapped handler ran, how the
      call ended (`None` is Python's `None`), and the replies it sent. */
  datatype Call<T> = Call(invoked: bool, outcome: Outcome<Option<T>>, replies: seq<string>)

  /** Running the wrapped handler and passing on how it ends. */
  function Invoke<T>(handler: Outcome<Option<T>>): Call<T>
  {
    Call(true, handler, [])
  }

  const SubscribeMessage: string := "\U{1F512} **برای دسترسی به این بخش، لطفاً در کانال\U{200C}های زیر عضو شوید:**\n\nپس از عضویت، دکمه 'بررسی عضویت' را بزنید."
  const AdminOnlyMessage: string := "\U{26D4} **دسترسی محدود!**\nاین دستور فقط برای مدیران ربات قابل استفاده است."
  const ErrorMessage: string := "\U{26A0}\U{FE0F} **خطایی رخ داد!**\n\nلطفاً دوباره تلاش کنید یا با پشتیبانی تماس بگیرید.\nبرای راهنمایی /help را ارسال کنید."

  /** The membership check of `require_subscription` is a constant. */
  const HasJoined: bool := true

  /** `require_subscription`: admins reach the handler; everyone else is
      checked against `has_joined`, which is always true, so the handler
      runs for every user and the subscription prompt is never sent. */
  function RequireSubscription<T>(userId: int, admins: seq<int>, handler: Outcome<Option<T>>): (c: Call<T>)
    ensures c.invoked && c.outcome == handler
    ensures SubscribeMessage !in c.replies
  {
    if userId in admins then Invoke(handler)
    else if !HasJoined then Call(false, Returned(None), [SubscribeMessage])
    else Invoke(handler)
  }

  /** `require_admin`: a non-admin gets the denial reply and `None`, and
      the handler never runs (a failing reply propagates its exception); an
      admin gets the handler's outcome unchanged. `reply` is the failure of
      `reply_text`, if any. */
  function RequireAdmin<T>(userId: int, admins: seq<int>, handler: Outcome<Option<T>>, reply: Option<Exc>): (c: Call<T>)
    ensures c.invoked <==> userId in admins
    ensures userId in admins ==> c.outcome == handler && c.replies == []
    ensures userId !in admins && reply.None? ==> c.outcome == Returned(None) && c.replies == [AdminOnlyMessage]
    ensures userId !in admins && reply.Some? ==> c.outcome == Raised(reply.value) && c.replies == []
  {
    if userId !in admins then
      match reply
      case None => Call(false, Returned(None), [AdminOnlyMessage])
      case Some(e) => Call(false, Raised(e), [])
    else Invoke(handler)
  }

  /** `handle_errors` around a call: an `Exception` is swallowed into
      `None` after an error reply (whose own failure, of any kind, is
      swallowed too); a normal end and a cancellation pass through. */
  function HandleErrors<T>(inner: Call<T>, reply: Option<Exc>): (c: Call<T>)
    ensures c.invoked == inner.invoked
    ensures c.outcome != Raised(Error)
    ensures inner.outcome != Raised(Error) ==> c == inner
    ensures inner.outcome == Raised(Error) ==>
      c.outcome == Returned(None)
      && c.replies == inner.replies + (if reply.None? then [ErrorMessage] else [])
  {
    if inner.outcome == Raised(Error) then
      Call(inner.invoked, Returned(None), inner.replies + (if reply.None? then [ErrorMessage] else []))
    else inner
  }

  /** Guarding an already guarded call changes nothing. */
  lemma HandleErrorsIdempotent<T>(inner: Call<T>, reply: Option<Exc>, reply': Option<Exc>)
    ensures HandleErrors(HandleErrors(inner, reply), reply') == HandleErrors(inner, reply)
  {
  }
}
