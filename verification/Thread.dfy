/** Names of threads. */
module Threads {

  type Tid = nat
}
