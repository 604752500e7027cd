/** The process-wide task id counter: a singleton whose counter only moves up. */
module IdGen {

  class TaskIdGenerator {
    /** `_counter`: the last id handed out, 0 before the first. */
    var counter: nat
    /** Every id handed out so far. */
    ghost var issued: set<nat>

    ghost predicate Valid()
      reads this
    {
      forall j :: j in issued <==> 1 <= j <= counter
    }

    constructor ()
      ensures Valid() && counter == 0 && issued == {}
    {
      counter := 0;
      issued := {};
    }

    /** `get_next_id`: bump the counter and return its new value, never one seen before. */
    method GetNextId() returns (id: nat)
      requires Valid()
      modifies this
      ensures Valid()
      ensures counter == old(counter) + 1 && id == counter
      ensures id !in old(issued) && issued == old(issued) + {id}
      ensures forall j :: j in old(issued) ==> j < id
    {
      counter := counter + 1;
      issued := issued + {counter};
      id := counter;
    }
  }

  /** The class-level slot `TaskIdGenerator._instance`. */
  class GeneratorSlot {
    var instance: TaskIdGenerator?

    constructor ()
      ensures instance == null
    {
      instance := null;
    }

    /**
      `TaskIdGenerator()`: the first construction creates the shared generator, every later
      one returns that same object, so all callers draw from one counter.
    */
    method Instance() returns (g: TaskIdGenerator)
      modifies this
      ensures instance == g
      ensures old(instance) != null ==> g == old(instance)
      ensures old(instance) == null ==> fresh(g) && g.Valid() && g.counter == 0
    {
      if instance == null {
        instance := new TaskIdGenerator();
      }
      g := instance;
    }
  }

  /** Two constructions share one counter: ids drawn through either are distinct. */
  method SharedCounter() returns (a: nat, b: nat)
    ensures a == 1 && b == 2
  {
    var slot := new GeneratorSlot();
    var g1 := slot.Instance();
    var g2 := slot.Instance();
    a := g1.GetNextId();
    b := g2.GetNextId();
  }
}
