/**
 The timers of the runtime.  Setting one returns its id.  A timer stays pending until it fires
 or is cleared, whether or not anybody still remembers its id.
 */
module Timers {

  /** `pending` says what each pending timer was set to; `next` is the id of the next one. */
  datatype Timers<T> = Timers(pending: map<nat, T>, next: nat)

  function Armed<T>(t: Timers<T>, value: T): Timers<T> {
    Timers(t.pending[t.next := value], t.next + 1)
  }

  /** Clearing a timer that is not pending has no effect. */
  function Without<T>(t: Timers<T>, id: nat): Timers<T> {
    t.(pending := t.pending - {id})
  }
}
