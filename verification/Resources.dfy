/** A shared resource with a number of units (src/resource.cpp). */
module Resources {
  import opened Common
  import opened ReadyQueue

  type ResName = string

  datatype ResState = ResState(total: int, available: int, owner: Option<Task>) {

    function Lock(t: Task): ResState { this.(available := available - 1, owner := Some(t)) }

    function Unlock(): ResState { this.(available := available + 1, owner := None) }

    predicate IsLocked() { available == 0 }
  }

  type ResTable = map<ResName, ResState>
  type WaitLists = map<ResName, seq<Task>>

  /** The tasks that wait for r, the next one to be served first. */
  function Waiting(b: WaitLists, r: ResName): seq<Task> { if r in b then b[r] else [] }

  ghost predicate WaitsSomewhere(b: WaitLists, t: Task) { exists r :: t in Waiting(b, r) }

  class Resource {
    const total: int
    var available: int
    var owner: Option<Task>

    ghost function State(): ResState
      reads this
    {
      ResState(total, available, owner)
    }

    constructor (n: int)
      ensures State() == ResState(n, n, None)
    {
      total := n;
      available := n;
      owner := None;
    }

    method Lock(t: Task)
      modifies this
      ensures State() == old(State()).Lock(t)
    {
      available := available - 1;
      owner := Some(t);
    }

    method Unlock()
      modifies this
      ensures State() == old(State()).Unlock()
    {
      available := available + 1;
      owner := None;
    }

    method IsLocked() returns (b: bool)
      ensures b == State().IsLocked()
    {
      b := available == 0;
    }
  }

  // ---------- the resources of a manager ----------

  ghost predicate DistinctResources(res: map<ResName, Resource>) {
    forall r, r' :: r in res && r' in res && res[r] == res[r'] ==> r == r'
  }

  ghost function TableOf(res: map<ResName, Resource>): ResTable
    reads res.Values
  {
    map r | r in res :: res[r].State()
  }

  method LockIn(res: map<ResName, Resource>, r: ResName, t: Task)
    requires DistinctResources(res) && r in res
    modifies res[r]
    ensures TableOf(res) == old(TableOf(res))[r := old(res[r].State()).Lock(t)]
  {
    res[r].Lock(t);
  }

  method UnlockIn(res: map<ResName, Resource>, r: ResName)
    requires DistinctResources(res) && r in res
    modifies res[r]
    ensures TableOf(res) == old(TableOf(res))[r := old(res[r].State()).Unlock()]
  {
    res[r].Unlock();
  }
}
