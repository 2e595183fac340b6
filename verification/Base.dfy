/** Shared vocabulary. */
module Base {
  datatype Option<+T> = None | Some(value: T)

  /** Of the connections handed out so far, numbered from 0, exactly those other than conn are closed. */
  ghost predicate OnlyOpen(handedOut: nat, closed: set<nat>, conn: Option<nat>) {
    && (conn.Some? ==> conn.value < handedOut)
    && (forall c :: c in closed ==> c < handedOut)
    && (forall c: nat :: c < handedOut ==> (c in closed <==> conn != Some(c)))
  }
}
