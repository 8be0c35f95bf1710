/** Names and look-ups that all parts of the model share. */
module Base {
  /** Threads, pulses, connections, channels and processes are named by integers. */
  type Id = int

  datatype Option<T> = None | Some(value: T)

  /** A pointer field that may be null. */
  function Lookup(f: map<Id, Id>, t: Id): Option<Id> {
    if t in f then Some(f[t]) else None
  }
}
