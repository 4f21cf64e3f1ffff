/** The few notions of a Kubernetes API server that the other modules share. */
module Kube {

  datatype Option<+T> = None | Some(value: T)

  /** The two dashboard backends every registration talks to. */
  datatype Backend = Grafana | Perses

  /** Every value one object has had on the API server, oldest first, and the index the
      shared informer cache has reached. The cache may lag but never moves back. */
  datatype Versioned<T> = Versioned(hist: seq<T>, pos: nat) {

    predicate Valid() {
      pos < |hist|
    }

    function Live(): T
      requires Valid()
    {
      hist[|hist| - 1]
    }

    function Cached(): T
      requires Valid()
    {
      hist[pos]
    }

    function Write(v: T): Versioned<T> {
      Versioned(hist + [v], pos)
    }

    function Sync(n: nat): Versioned<T>
      requires Valid()
    {
      if pos <= n < |hist| then Versioned(hist, n) else this
    }
  }

  function Initial<T>(v: T): Versioned<T> {
    Versioned([v], 0)
  }
}
