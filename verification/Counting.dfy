/** Counting the threads of a machine that are in a given part of the program. */
module Counting {

  function Where<T>(threads: map<nat, T>, p: T -> bool): set<nat> {
    set t | t in threads && p(threads[t])
  }

  function Count<T>(threads: map<nat, T>, p: T -> bool): nat {
    |Where(threads, p)|
  }

  function Bit(b: bool): int {
    if b then 1 else 0
  }

  /** One thread moves (or appears): the count follows it. */
  lemma Moved<T>(threads: map<nat, T>, t: nat, pc: T, p: T -> bool)
    ensures Count(threads[t := pc], p) == Count(threads, p) + Bit(p(pc)) - Bit(t in threads && p(threads[t]))
  {
    var before, after := Where(threads, p), Where(threads[t := pc], p);
    assert after == if p(pc) then before + {t} else before - {t};
  }

  lemma Member<T>(threads: map<nat, T>, t: nat, p: T -> bool)
    requires t in threads && p(threads[t])
    ensures Count(threads, p) > 0
  {
    assert t in Where(threads, p);
  }

  lemma NoMember<T>(threads: map<nat, T>, p: T -> bool)
    requires Count(threads, p) == 0
    ensures forall t :: t in threads ==> !p(threads[t])
  {
    forall t | t in threads
      ensures !p(threads[t])
    {
      if p(threads[t]) {
        Member(threads, t, p);
      }
    }
  }

  lemma SomeMember<T>(threads: map<nat, T>, p: T -> bool) returns (t: nat)
    requires Count(threads, p) > 0
    ensures t in threads && p(threads[t])
  {
    t :| t in Where(threads, p);
  }
}
