/**
 An asyncio lock. It is free for newcomers only when nobody holds it and nobody waits; between
 a release and the resumption of the head waiter it has no holder.
 */
module AsyncLocks {
  import opened Options

  type CallId = nat

  datatype Lock = Lock(holder: Option<CallId>, waiters: seq<CallId>)
}
